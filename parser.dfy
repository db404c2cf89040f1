/** The parser object and the entry point that lexes and parses a source text. Every parse
    method is proved to return what its rule in `Grammar` computes from the cursor
    position it started at, and to leave the cursor where that rule ends. */
module StrategyParser {
  import opened Tokens
  import opened Errors
  import opened Ast
  import Lexer
  import Grammar

  /** A parse method's result agrees with its grammar rule: the same value with the cursor
      just past it, or the same failure. (After a failure the cursor is of no interest:
      the failure aborts the whole parse.) */
  predicate Agrees<T(==)>(r: Result<T>, spec: Result<Parsed<T>>, current: nat) {
    match spec
    case Ok(p) => r == Ok(p.value) && current == p.next
    case Err(e) => r == Err(e)
  }

  class Parser {
    const tokens: seq<Token>
    var current: nat

    /** The cursor is inside a token list that ends with the end marker. */
    ghost predicate Valid()
      reads this
    {
      Grammar.At(tokens, current)
    }

    constructor (tokens: seq<Token>)
      requires EndsWithEof(tokens)
      ensures Valid() && this.tokens == tokens && current == 0
    {
      this.tokens := tokens;
      current := 0;
    }

    // -------------------------------------------------------------------------------
    // Cursor
    // -------------------------------------------------------------------------------

    function Peek(): Token
      reads this
      requires Valid()
    {
      tokens[current]
    }

    function Previous(): Token
      reads this
      requires Valid() && current > 0
    {
      tokens[current - 1]
    }

    predicate Check(kind: TokenType)
      reads this
      requires Valid()
    {
      Peek().kind == kind
    }

    predicate IsAtEnd()
      reads this
      requires Valid()
    {
      Peek().kind == EOF
    }

    /** Step past the current token unless it is the end marker, and return the token
        before the cursor. */
    method Advance() returns (t: Token)
      requires Valid() && (current > 0 || !IsAtEnd())
      modifies this
      ensures Valid() && current == Grammar.Advance(tokens, old(current))
      ensures current > 0 && t == tokens[current - 1]
    {
      if !IsAtEnd() {
        current := current + 1;
      }
      t := Previous();
    }

    /** Step past the current token if its type is one of `types`. */
    method Match(types: seq<TokenType>) returns (matched: bool)
      requires Valid() && EOF !in types
      modifies this
      ensures Valid()
      ensures matched <==> old(Peek().kind) in types
      ensures current == if matched then old(current) + 1 else old(current)
    {
      for k := 0 to |types|
        invariant current == old(current)
        invariant forall j | 0 <= j < k :: types[j] != Peek().kind
      {
        if Check(types[k]) {
          var _ := Advance();
          return true;
        }
      }
      return false;
    }

    /** Step past a token of type `kind`, or fail at the current token. */
    method Consume(kind: TokenType, m: Message) returns (r: Result<Token>)
      requires Valid() && kind != EOF
      modifies this
      ensures Valid() && Agrees(r, Grammar.Consume(tokens, old(current), kind, m), current)
    {
      if Check(kind) {
        var t := Advance();
        return Ok(t);
      }
      return Err(ErrorAt(Peek(), m));
    }

    // -------------------------------------------------------------------------------
    // Statements
    // -------------------------------------------------------------------------------

    /** Statements up to the end marker; at least one is required. */
    method ParseStrategy() returns (r: Result<seq<Stmt>>)
      requires Valid()
      modifies this
      ensures r == Grammar.Strategy(tokens, old(current))
    {
      var statements: seq<Stmt> := [];
      while !IsAtEnd()
        invariant Valid() && old(current) <= current
        invariant Grammar.StatementsUntilEnd(tokens, old(current), [])
               == Grammar.StatementsUntilEnd(tokens, current, statements)
        decreases |tokens| - current
      {
        var s :- ParseStatement();
        statements := statements + [s];
      }
      if statements == [] {
        return Err(ErrorAt(Peek(), ExpectedAtLeastOneStatement));
      }
      return Ok(statements);
    }

    method ParseStatement() returns (r: Result<Stmt>)
      requires Valid()
      modifies this
      ensures Valid() && Agrees(r, Grammar.Statement(tokens, old(current)), current)
      decreases |tokens| - current, 10
    {
      match Peek().kind
      case IF => r := ParseIfStatement();
      case WHILE => r := ParseWhileStatement();
      case LBRACE => r := ParseBlockStatement();
      case DONE =>
        var _ := Advance();
        r := Ok(Done);
      case MOVE => r := ParseMoveStatement();
      case SHOOT => r := ParseShootStatement();
      case IDENT => r := ParseAssignmentStatement();
      case _ => r := Err(ErrorAt(Peek(), ExpectedStatement));
    }

    method ParseIfStatement() returns (r: Result<Stmt>)
      requires Valid()
      modifies this
      ensures Valid() && Agrees(r, Grammar.IfStatement(tokens, old(current)), current)
      decreases |tokens| - current, 9
    {
      var kw :- Consume(IF, ExpectedIf);
      var lp :- Consume(LPAREN, ExpectedLParenAfterIf);
      var cond :- ParseExpression();
      var rp :- Consume(RPAREN, ExpectedRParenAfterCondition);
      var th :- Consume(THEN, ExpectedThenAfterCondition);
      var thenBranch :- ParseStatement();
      var el :- Consume(ELSE, ExpectedElseAfterThenBranch);
      var elseBranch :- ParseStatement();
      return Ok(If(cond, thenBranch, elseBranch));
    }

    method ParseWhileStatement() returns (r: Result<Stmt>)
      requires Valid()
      modifies this
      ensures Valid() && Agrees(r, Grammar.WhileStatement(tokens, old(current)), current)
      decreases |tokens| - current, 9
    {
      var kw :- Consume(WHILE, ExpectedWhile);
      var lp :- Consume(LPAREN, ExpectedLParenAfterWhile);
      var cond :- ParseExpression();
      var rp :- Consume(RPAREN, ExpectedRParenAfterCondition);
      var body :- ParseStatement();
      return Ok(While(cond, body));
    }

    method ParseBlockStatement() returns (r: Result<Stmt>)
      requires Valid()
      modifies this
      ensures Valid() && Agrees(r, Grammar.BlockStatement(tokens, old(current)), current)
      decreases |tokens| - current, 9
    {
      var lb :- Consume(LBRACE, ExpectedLBrace);
      ghost var start := current;
      var statements: seq<Stmt> := [];
      while !Check(RBRACE) && !IsAtEnd()
        invariant Valid() && old(current) < start <= current
        invariant Grammar.BlockItems(tokens, start, [])
               == Grammar.BlockItems(tokens, current, statements)
        decreases |tokens| - current
      {
        var s :- ParseStatement();
        statements := statements + [s];
      }
      var rb :- Consume(RBRACE, ExpectedRBraceAfterBlock);
      return Ok(Block(statements));
    }

    method ParseMoveStatement() returns (r: Result<Stmt>)
      requires Valid()
      modifies this
      ensures Valid() && Agrees(r, Grammar.MoveStatement(tokens, old(current)), current)
    {
      var kw :- Consume(MOVE, ExpectedMove);
      var dir :- ParseDirection();
      return Ok(Move(dir));
    }

    method ParseShootStatement() returns (r: Result<Stmt>)
      requires Valid()
      modifies this
      ensures Valid() && Agrees(r, Grammar.ShootStatement(tokens, old(current)), current)
      decreases |tokens| - current, 9
    {
      var kw :- Consume(SHOOT, ExpectedShoot);
      var dir :- ParseDirection();
      var expenditure :- ParseExpression();
      return Ok(Shoot(dir, expenditure));
    }

    method ParseAssignmentStatement() returns (r: Result<Stmt>)
      requires Valid()
      modifies this
      ensures Valid() && Agrees(r, Grammar.AssignmentStatement(tokens, old(current)), current)
      decreases |tokens| - current, 9
    {
      var name :- Consume(IDENT, ExpectedIdentifier);
      var eq :- Consume(EQUAL, ExpectedEqualAfterIdentifier);
      var value :- ParseExpression();
      return Ok(Assign(name.lexeme, value));
    }

    /** Reads the direction word after `move`, `shoot` or `nearby`. */
    method ParseDirection() returns (r: Result<Direction>)
      requires Valid() && current > 0 && Grammar.IsDirectionKeyword(tokens[current - 1].kind)
      modifies this
      ensures Valid() && Agrees(r, Grammar.DirectionAt(tokens, old(current)), current)
    {
      var token := Advance();
      match token.kind
      case UP => r := Ok(Up);
      case DOWN => r := Ok(Down);
      case UPLEFT => r := Ok(UpLeft);
      case UPRIGHT => r := Ok(UpRight);
      case DOWNLEFT => r := Ok(DownLeft);
      case DOWNRIGHT => r := Ok(DownRight);
      case _ => r := Err(ErrorAt(token, ExpectedDirection));
    }

    // -------------------------------------------------------------------------------
    // Expressions
    // -------------------------------------------------------------------------------

    method ParseExpression() returns (r: Result<Expr>)
      requires Valid()
      modifies this
      ensures Valid() && Agrees(r, Grammar.Expression(tokens, old(current)), current)
      decreases |tokens| - current, 8
    {
      r := ParseAddSub();
    }

    method ParseAddSub() returns (r: Result<Expr>)
      requires Valid()
      modifies this
      ensures Valid() && Agrees(r, Grammar.AddSub(tokens, old(current)), current)
      decreases |tokens| - current, 7
    {
      ghost var spec := Grammar.AddSub(tokens, current);
      var expr :- ParseMulDivMod();
      // Java's `while (match(PLUS, MINUS)) { ... }`, with the match at the head of the body
      while true
        invariant Valid() && old(current) < current && Grammar.AfterProduct(tokens, current)
        invariant spec == Grammar.AddSubTail(tokens, expr, current)
        decreases |tokens| - current
      {
        var matched := Match([PLUS, MINUS]);
        if !matched {
          AddSubTailStop(tokens, expr, current);
          break;
        }
        var op := Previous();
        AddSubTailStep(tokens, expr, current - 1);
        var right := ParseMulDivMod();
        if right.Err? {
          return Err(right.error);
        }
        expr := Binary(op.lexeme, expr, right.value);
      }
      return Ok(expr);
    }

    method ParseMulDivMod() returns (r: Result<Expr>)
      requires Valid()
      modifies this
      ensures Valid() && Agrees(r, Grammar.MulDivMod(tokens, old(current)), current)
      decreases |tokens| - current, 6
    {
      ghost var spec := Grammar.MulDivMod(tokens, current);
      var expr :- ParsePower();
      // Java's `while (match(STAR, SLASH, PERCENT)) { ... }`, with the match at the head of the body
      while true
        invariant Valid() && old(current) < current && Grammar.AfterPower(tokens, current)
        invariant spec == Grammar.MulDivModTail(tokens, expr, current)
        decreases |tokens| - current
      {
        var matched := Match([STAR, SLASH, PERCENT]);
        if !matched {
          MulDivModTailStop(tokens, expr, current);
          break;
        }
        var op := Previous();
        MulDivModTailStep(tokens, expr, current - 1);
        var right := ParsePower();
        if right.Err? {
          return Err(right.error);
        }
        expr := Binary(op.lexeme, expr, right.value);
      }
      return Ok(expr);
    }

    method ParsePower() returns (r: Result<Expr>)
      requires Valid()
      modifies this
      ensures Valid() && Agrees(r, Grammar.Power(tokens, old(current)), current)
      decreases |tokens| - current, 5
    {
      var left :- ParsePrimary();
      var matched := Match([CARET]);
      if matched {
        var op := Previous();
        var right :- ParsePower();  // `^` nests to the right
        return Ok(Binary(op.lexeme, left, right));
      }
      return Ok(left);
    }

    method ParsePrimary() returns (r: Result<Expr>)
      requires Valid()
      modifies this
      ensures Valid() && Agrees(r, Grammar.Primary(tokens, old(current)), current)
      decreases |tokens| - current, 4
    {
      match Peek().kind
      case NUMBER =>
        var t := Advance();
        r := Ok(Num(t.value));
      case IDENT =>
        var t := Advance();
        r := Ok(Var(t.lexeme));
      case LPAREN => r := ParseParenExpression();
      case ALLY => r := ParseInfo(Ally);
      case OPPONENT => r := ParseInfo(Opponent);
      case NEARBY => r := ParseNearby();
      case _ => r := Err(ErrorAt(Peek(), ExpectedExpression));
    }

    method ParseParenExpression() returns (r: Result<Expr>)
      requires Valid()
      modifies this
      ensures Valid() && Agrees(r, Grammar.ParenExpression(tokens, old(current)), current)
      decreases |tokens| - current, 3
    {
      var lp :- Consume(LPAREN, ExpectedLParen);
      var inner :- ParseExpression();
      var rp :- Consume(RPAREN, ExpectedRParen);
      return Ok(Paren(inner));
    }

    method ParseInfo(kind: InfoKind) returns (r: Result<Expr>)
      requires Valid() && !IsAtEnd()
      modifies this
      ensures Valid() && Agrees(r, Grammar.InfoExpression(tokens, old(current), kind), current)
    {
      var _ := Advance();
      return Ok(Info(kind, None));
    }

    method ParseNearby() returns (r: Result<Expr>)
      requires Valid()
      modifies this
      ensures Valid() && Agrees(r, Grammar.NearbyExpression(tokens, old(current)), current)
    {
      var kw :- Consume(NEARBY, ExpectedNearby);
      var dir :- ParseDirection();
      return Ok(Info(Nearby, Some(dir)));
    }
  }

  /** The `+`/`-` loop ends at any other token. */
  lemma AddSubTailStop(ts: seq<Token>, left: Expr, at: nat)
    requires Grammar.AfterProduct(ts, at) && !(ts[at].kind == PLUS || ts[at].kind == MINUS)
    ensures Grammar.AddSubTail(ts, left, at) == Ok(Parsed(left, at))
  {
  }

  /** One turn of the `+`/`-` loop: the rest of the sum after an operator. */
  lemma AddSubTailStep(ts: seq<Token>, left: Expr, at: nat)
    requires Grammar.AfterProduct(ts, at) && (ts[at].kind == PLUS || ts[at].kind == MINUS)
    ensures Grammar.MulDivMod(ts, at + 1).Err? ==> Grammar.AddSubTail(ts, left, at) == Err(Grammar.MulDivMod(ts, at + 1).error)
    ensures Grammar.MulDivMod(ts, at + 1).Ok? ==>
      Grammar.AddSubTail(ts, left, at)
      == Grammar.AddSubTail(ts, Binary(ts[at].lexeme, left, Grammar.MulDivMod(ts, at + 1).value.value), Grammar.MulDivMod(ts, at + 1).value.next)
  {
  }

  /** The `*`/`/`/`%` loop ends at any other token. */
  lemma MulDivModTailStop(ts: seq<Token>, left: Expr, at: nat)
    requires Grammar.AfterPower(ts, at) && !(ts[at].kind == STAR || ts[at].kind == SLASH || ts[at].kind == PERCENT)
    ensures Grammar.MulDivModTail(ts, left, at) == Ok(Parsed(left, at))
  {
  }

  /** One turn of the `*`/`/`/`%` loop: the rest of the product after an operator. */
  lemma MulDivModTailStep(ts: seq<Token>, left: Expr, at: nat)
    requires Grammar.AfterPower(ts, at) && (ts[at].kind == STAR || ts[at].kind == SLASH || ts[at].kind == PERCENT)
    ensures Grammar.Power(ts, at + 1).Err? ==> Grammar.MulDivModTail(ts, left, at) == Err(Grammar.Power(ts, at + 1).error)
    ensures Grammar.Power(ts, at + 1).Ok? ==>
      Grammar.MulDivModTail(ts, left, at)
      == Grammar.MulDivModTail(ts, Binary(ts[at].lexeme, left, Grammar.Power(ts, at + 1).value.value), Grammar.Power(ts, at + 1).value.next)
  {
  }

  // ---------------------------------------------------------------------------------
  // Entry point
  // ---------------------------------------------------------------------------------

  /** What parsing a source text yields: its strategy, or the first lexical or syntactic
      failure. */
  function ParseText(src: string): Result<seq<Stmt>> {
    var ts :- Lexer.Scan(src, 0);
    Grammar.Strategy(ts, 0)
  }

  method Parse(src: string) returns (r: Result<seq<Stmt>>)
    ensures r == ParseText(src)
  {
    var tokens :- Lexer.Lex(src);
    var parser := new Parser(tokens);
    r := parser.ParseStrategy();
  }
}
