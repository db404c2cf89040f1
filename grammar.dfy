/** The parser as functions: each rule of the recursive-descent parser reads the token
    list from an index and returns what it recognised together with the index after it,
    or the failure it raises. The `Parser` class is proved to compute exactly these. */
module Grammar {
  import opened Tokens
  import opened Errors
  import opened Ast

  /** Where the parser may stand: the list ends with the end marker and `i` is inside it. */
  predicate At(ts: seq<Token>, i: nat) {
    EndsWithEof(ts) && i < |ts|
  }

  /** The cursor step of the parser: it never moves past the end marker. */
  function Advance(ts: seq<Token>, i: nat): (j: nat)
    requires At(ts, i)
    ensures At(ts, j)
    ensures j == i <==> ts[i].kind == EOF
    ensures j == i || j == i + 1
  {
    if ts[i].kind == EOF then i else i + 1
  }

  /** The lexeme of every operator token is the operator's own character, as the lexer
      makes it; the parser copies that lexeme into the tree. */
  predicate OperatorSpelled(t: Token) {
    && (t.kind == PLUS ==> t.lexeme == "+")
    && (t.kind == MINUS ==> t.lexeme == "-")
    && (t.kind == STAR ==> t.lexeme == "*")
    && (t.kind == SLASH ==> t.lexeme == "/")
    && (t.kind == PERCENT ==> t.lexeme == "%")
    && (t.kind == CARET ==> t.lexeme == "^")
  }

  predicate OperatorsSpelled(ts: seq<Token>) {
    forall k | 0 <= k < |ts| :: OperatorSpelled(ts[k])
  }

  /** The token types that continue an expression after a complete operand. */
  predicate IsOperator(k: TokenType) {
    k == PLUS || k == MINUS || k == STAR || k == SLASH || k == PERCENT || k == CARET
  }

  /** Where the `+`/`-` loop may resume: after a whole product. */
  predicate AfterProduct(ts: seq<Token>, i: nat) {
    At(ts, i) && !(ts[i].kind in {STAR, SLASH, PERCENT, CARET})
  }

  /** Where the `*`/`/`/`%` loop may resume: after a whole power. */
  predicate AfterPower(ts: seq<Token>, i: nat) {
    At(ts, i) && ts[i].kind != CARET
  }

  /** The token types a statement can start with. */
  predicate StartsStatement(k: TokenType) {
    k == IDENT || k == DONE || k == MOVE || k == SHOOT || k == LBRACE || k == IF || k == WHILE
  }

  /** The token types an expression can start with. */
  predicate StartsPrimary(k: TokenType) {
    k == NUMBER || k == IDENT || k == LPAREN || k == ALLY || k == OPPONENT || k == NEARBY
  }

  /** Expect one token of type `kind` at `i`; fail at the token found otherwise. */
  function Consume(ts: seq<Token>, i: nat, kind: TokenType, m: Message): (r: Result<Parsed<Token>>)
    requires At(ts, i) && kind != EOF
    ensures r.Ok? <==> ts[i].kind == kind
    ensures r.Ok? ==> r.value == Parsed(ts[i], i + 1) && At(ts, i + 1)
    ensures r.Err? ==> r.error == ErrorAt(ts[i], m)
  {
    if ts[i].kind == kind then Ok(Parsed(ts[i], i + 1)) else Err(ErrorAt(ts[i], m))
  }

  // ---------------------------------------------------------------------------------
  // Statements
  // ---------------------------------------------------------------------------------

  /** A whole strategy: statements up to the end marker, at least one of them. */
  function Strategy(ts: seq<Token>, i: nat): (r: Result<seq<Stmt>>)
    requires At(ts, i)
    ensures r.Ok? ==> |r.value| > 0
    ensures r.Ok? && OperatorsSpelled(ts) ==> forall s | s in r.value :: WellShaped(s)
  {
    var stmts :- StatementsUntilEnd(ts, i, []);
    if stmts.value == [] then Err(ErrorAt(ts[stmts.next], ExpectedAtLeastOneStatement))
    else Ok(stmts.value)
  }

  /** The statement loop of a strategy: `acc` holds the statements read so far. */
  function StatementsUntilEnd(ts: seq<Token>, i: nat, acc: seq<Stmt>): (r: Result<Parsed<seq<Stmt>>>)
    requires At(ts, i)
    ensures r.Ok? ==> i <= r.value.next < |ts| && ts[r.value.next].kind == EOF
    ensures r.Ok? ==> (|r.value.value| == |acc| <==> ts[i].kind == EOF)
    ensures r.Ok? ==> |acc| <= |r.value.value| && r.value.value[..|acc|] == acc
    ensures r.Ok? && OperatorsSpelled(ts) && (forall s | s in acc :: WellShaped(s)) ==>
      forall s | s in r.value.value :: WellShaped(s)
    decreases |ts| - i, 11
  {
    if ts[i].kind == EOF then Ok(Parsed(acc, i))
    else
      var s :- Statement(ts, i);
      StatementsUntilEnd(ts, s.next, acc + [s.value])
  }

  /** One statement, chosen by its first token. */
  function Statement(ts: seq<Token>, i: nat): (r: Result<Parsed<Stmt>>)
    requires At(ts, i)
    ensures r.Ok? ==> i < r.value.next < |ts|
    ensures r.Ok? && OperatorsSpelled(ts) ==> WellShaped(r.value.value)
    decreases |ts| - i, 10
  {
    match ts[i].kind
    case IF => IfStatement(ts, i)
    case WHILE => WhileStatement(ts, i)
    case LBRACE => BlockStatement(ts, i)
    case DONE => Ok(Parsed(Done, i + 1))
    case MOVE => MoveStatement(ts, i)
    case SHOOT => ShootStatement(ts, i)
    case IDENT => AssignmentStatement(ts, i)
    case _ => Err(ErrorAt(ts[i], ExpectedStatement))
  }

  /** `if ( cond ) then stmt else stmt` */
  function IfStatement(ts: seq<Token>, i: nat): (r: Result<Parsed<Stmt>>)
    requires At(ts, i)
    ensures r.Ok? ==> i < r.value.next < |ts| && r.value.value.If?
    ensures r.Ok? && OperatorsSpelled(ts) ==> WellShaped(r.value.value)
    decreases |ts| - i, 9
  {
    var kw :- Consume(ts, i, IF, ExpectedIf);
    var lp :- Consume(ts, kw.next, LPAREN, ExpectedLParenAfterIf);
    var cond :- Expression(ts, lp.next);
    var rp :- Consume(ts, cond.next, RPAREN, ExpectedRParenAfterCondition);
    var th :- Consume(ts, rp.next, THEN, ExpectedThenAfterCondition);
    var thenBranch :- Statement(ts, th.next);
    var el :- Consume(ts, thenBranch.next, ELSE, ExpectedElseAfterThenBranch);
    var elseBranch :- Statement(ts, el.next);
    Ok(Parsed(If(cond.value, thenBranch.value, elseBranch.value), elseBranch.next))
  }

  /** `while ( cond ) stmt` */
  function WhileStatement(ts: seq<Token>, i: nat): (r: Result<Parsed<Stmt>>)
    requires At(ts, i)
    ensures r.Ok? ==> i < r.value.next < |ts| && r.value.value.While?
    ensures r.Ok? && OperatorsSpelled(ts) ==> WellShaped(r.value.value)
    decreases |ts| - i, 9
  {
    var kw :- Consume(ts, i, WHILE, ExpectedWhile);
    var lp :- Consume(ts, kw.next, LPAREN, ExpectedLParenAfterWhile);
    var cond :- Expression(ts, lp.next);
    var rp :- Consume(ts, cond.next, RPAREN, ExpectedRParenAfterCondition);
    var body :- Statement(ts, rp.next);
    Ok(Parsed(While(cond.value, body.value), body.next))
  }

  /** `{ stmt* }` */
  function BlockStatement(ts: seq<Token>, i: nat): (r: Result<Parsed<Stmt>>)
    requires At(ts, i)
    ensures r.Ok? ==> i < r.value.next < |ts| && r.value.value.Block?
    ensures r.Ok? && OperatorsSpelled(ts) ==> WellShaped(r.value.value)
    decreases |ts| - i, 9
  {
    var lb :- Consume(ts, i, LBRACE, ExpectedLBrace);
    var body :- BlockItems(ts, lb.next, []);
    var rb :- Consume(ts, body.next, RBRACE, ExpectedRBraceAfterBlock);
    Ok(Parsed(Block(body.value), rb.next))
  }

  /** The statement loop of a block: it stops before a `}` or the end marker. */
  function BlockItems(ts: seq<Token>, i: nat, acc: seq<Stmt>): (r: Result<Parsed<seq<Stmt>>>)
    requires At(ts, i)
    ensures r.Ok? ==> i <= r.value.next < |ts|
    ensures r.Ok? ==> ts[r.value.next].kind == RBRACE || ts[r.value.next].kind == EOF
    ensures r.Ok? && OperatorsSpelled(ts) && (forall s | s in acc :: WellShaped(s)) ==>
      forall s | s in r.value.value :: WellShaped(s)
    decreases |ts| - i, 11
  {
    if ts[i].kind == RBRACE || ts[i].kind == EOF then Ok(Parsed(acc, i))
    else
      var s :- Statement(ts, i);
      BlockItems(ts, s.next, acc + [s.value])
  }

  /** `move direction` */
  function MoveStatement(ts: seq<Token>, i: nat): (r: Result<Parsed<Stmt>>)
    requires At(ts, i)
    ensures r.Ok? ==> r.value.next == i + 2 < |ts| && r.value.value.Move?
    decreases |ts| - i, 9
  {
    var kw :- Consume(ts, i, MOVE, ExpectedMove);
    var dir :- DirectionAt(ts, kw.next);
    Ok(Parsed(Move(dir.value), dir.next))
  }

  /** `shoot direction expr` */
  function ShootStatement(ts: seq<Token>, i: nat): (r: Result<Parsed<Stmt>>)
    requires At(ts, i)
    ensures r.Ok? ==> i + 2 < r.value.next < |ts| && r.value.value.Shoot?
    ensures r.Ok? && OperatorsSpelled(ts) ==> WellShaped(r.value.value)
    decreases |ts| - i, 9
  {
    var kw :- Consume(ts, i, SHOOT, ExpectedShoot);
    var dir :- DirectionAt(ts, kw.next);
    var expenditure :- Expression(ts, dir.next);
    Ok(Parsed(Shoot(dir.value, expenditure.value), expenditure.next))
  }

  /** `name = expr` */
  function AssignmentStatement(ts: seq<Token>, i: nat): (r: Result<Parsed<Stmt>>)
    requires At(ts, i)
    ensures r.Ok? ==> i + 2 < r.value.next < |ts| && r.value.value.Assign? && r.value.value.name == ts[i].lexeme
    ensures r.Ok? && OperatorsSpelled(ts) ==> WellShaped(r.value.value)
    decreases |ts| - i, 9
  {
    var name :- Consume(ts, i, IDENT, ExpectedIdentifier);
    var eq :- Consume(ts, name.next, EQUAL, ExpectedEqualAfterIdentifier);
    var value :- Expression(ts, eq.next);
    Ok(Parsed(Assign(name.value.lexeme, value.value), value.next))
  }

  /** The direction a token type names, if any. */
  function DirectionOf(k: TokenType): Option<Direction> {
    match k
    case UP => Some(Up)
    case DOWN => Some(Down)
    case UPLEFT => Some(UpLeft)
    case UPRIGHT => Some(UpRight)
    case DOWNLEFT => Some(DownLeft)
    case DOWNRIGHT => Some(DownRight)
    case _ => None
  }

  /** The keywords after which a direction is read. */
  predicate IsDirectionKeyword(k: TokenType) {
    k == MOVE || k == SHOOT || k == NEARBY
  }

  /** A direction word. The cursor steps first: at the end marker it stays put, and the
      token the step yields is then the one before it, so the failure cites that token. */
  function DirectionAt(ts: seq<Token>, i: nat): (r: Result<Parsed<Direction>>)
    requires At(ts, i) && 0 < i && IsDirectionKeyword(ts[i - 1].kind)
    ensures r.Ok? <==> DirectionOf(ts[i].kind).Some?
    ensures r.Ok? ==> r.value == Parsed(DirectionOf(ts[i].kind).value, i + 1) && At(ts, i + 1)
    ensures r.Err? ==> r.error == ErrorAt(if ts[i].kind == EOF then ts[i - 1] else ts[i], ExpectedDirection)
  {
    var j := Advance(ts, i);
    var token := ts[j - 1];
    match DirectionOf(token.kind)
    case Some(d) => Ok(Parsed(d, j))
    case None => Err(ErrorAt(token, ExpectedDirection))
  }

  // ---------------------------------------------------------------------------------
  // Expressions
  // ---------------------------------------------------------------------------------

  function Expression(ts: seq<Token>, i: nat): (r: Result<Parsed<Expr>>)
    requires At(ts, i)
    ensures r.Ok? ==> i < r.value.next < |ts| && !IsOperator(ts[r.value.next].kind)
    ensures r.Ok? && OperatorsSpelled(ts) ==> IsSum(r.value.value)
    decreases |ts| - i, 8
  {
    AddSub(ts, i)
  }

  /** Products joined by `+` and `-`, nested to the left. */
  function AddSub(ts: seq<Token>, i: nat): (r: Result<Parsed<Expr>>)
    requires At(ts, i)
    ensures r.Ok? ==> i < r.value.next < |ts| && !IsOperator(ts[r.value.next].kind)
    ensures r.Ok? && OperatorsSpelled(ts) ==> IsSum(r.value.value)
    decreases |ts| - i, 7
  {
    var left :- MulDivMod(ts, i);
    LevelsNest(left.value);
    AddSubTail(ts, left.value, left.next)
  }

  /** The `+`/`-` loop: `left` is the sum read so far. */
  function AddSubTail(ts: seq<Token>, left: Expr, i: nat): (r: Result<Parsed<Expr>>)
    requires AfterProduct(ts, i)
    ensures r.Ok? ==> i <= r.value.next < |ts| && !IsOperator(ts[r.value.next].kind)
    ensures r.Ok? && OperatorsSpelled(ts) && IsSum(left) ==> IsSum(r.value.value)
    decreases |ts| - i, 7
  {
    if ts[i].kind == PLUS || ts[i].kind == MINUS then
      match MulDivMod(ts, i + 1)
      case Err(e) => Err(e)
      case Ok(right) => AddSubTail(ts, Binary(ts[i].lexeme, left, right.value), right.next)
    else Ok(Parsed(left, i))
  }

  /** Powers joined by `*`, `/` and `%`, nested to the left. */
  function MulDivMod(ts: seq<Token>, i: nat): (r: Result<Parsed<Expr>>)
    requires At(ts, i)
    ensures r.Ok? ==> i < r.value.next && AfterProduct(ts, r.value.next)
    ensures r.Ok? && OperatorsSpelled(ts) ==> IsProduct(r.value.value)
    decreases |ts| - i, 6
  {
    var left :- Power(ts, i);
    LevelsNest(left.value);
    MulDivModTail(ts, left.value, left.next)
  }

  /** The `*`/`/`/`%` loop: `left` is the product read so far. */
  function MulDivModTail(ts: seq<Token>, left: Expr, i: nat): (r: Result<Parsed<Expr>>)
    requires AfterPower(ts, i)
    ensures r.Ok? ==> i <= r.value.next && AfterProduct(ts, r.value.next)
    ensures r.Ok? && OperatorsSpelled(ts) && IsProduct(left) ==> IsProduct(r.value.value)
    decreases |ts| - i, 6
  {
    if ts[i].kind == STAR || ts[i].kind == SLASH || ts[i].kind == PERCENT then
      match Power(ts, i + 1)
      case Err(e) => Err(e)
      case Ok(right) => MulDivModTail(ts, Binary(ts[i].lexeme, left, right.value), right.next)
    else Ok(Parsed(left, i))
  }

  /** A primary, then optionally `^` and a power: `^` nests to the right. */
  function Power(ts: seq<Token>, i: nat): (r: Result<Parsed<Expr>>)
    requires At(ts, i)
    ensures r.Ok? ==> i < r.value.next && AfterPower(ts, r.value.next)
    ensures r.Ok? && OperatorsSpelled(ts) ==> IsPower(r.value.value)
    decreases |ts| - i, 5
  {
    var left :- Primary(ts, i);
    LevelsNest(left.value);
    if ts[left.next].kind == CARET then
      var right :- Power(ts, left.next + 1);
      Ok(Parsed(Binary(ts[left.next].lexeme, left.value, right.value), right.next))
    else Ok(left)
  }

  /** A number, a variable, a parenthesised expression or a piece of game information. */
  function Primary(ts: seq<Token>, i: nat): (r: Result<Parsed<Expr>>)
    requires At(ts, i)
    ensures r.Ok? ==> i < r.value.next < |ts|
    ensures r.Ok? && OperatorsSpelled(ts) ==> IsPrimary(r.value.value)
    decreases |ts| - i, 4
  {
    var t := ts[i];
    match t.kind
    case NUMBER => Ok(Parsed(Num(t.value), i + 1))
    case IDENT => Ok(Parsed(Var(t.lexeme), i + 1))
    case LPAREN => ParenExpression(ts, i)
    case ALLY => InfoExpression(ts, i, Ally)
    case OPPONENT => InfoExpression(ts, i, Opponent)
    case NEARBY => NearbyExpression(ts, i)
    case _ => Err(ErrorAt(t, ExpectedExpression))
  }

  /** `( expr )` */
  function ParenExpression(ts: seq<Token>, i: nat): (r: Result<Parsed<Expr>>)
    requires At(ts, i)
    ensures r.Ok? ==> i < r.value.next < |ts| && r.value.value.Paren?
    ensures r.Ok? && OperatorsSpelled(ts) ==> IsPrimary(r.value.value)
    decreases |ts| - i, 3
  {
    var lp :- Consume(ts, i, LPAREN, ExpectedLParen);
    var inner :- Expression(ts, lp.next);
    var rp :- Consume(ts, inner.next, RPAREN, ExpectedRParen);
    Ok(Parsed(Paren(inner.value), rp.next))
  }

  /** `ally` or `opponent`: one word, no direction. */
  function InfoExpression(ts: seq<Token>, i: nat, kind: InfoKind): (r: Result<Parsed<Expr>>)
    requires At(ts, i) && ts[i].kind != EOF
    ensures r == Ok(Parsed(Info(kind, None), i + 1))
  {
    Ok(Parsed(Info(kind, None), Advance(ts, i)))
  }

  /** `nearby direction` */
  function NearbyExpression(ts: seq<Token>, i: nat): (r: Result<Parsed<Expr>>)
    requires At(ts, i)
    ensures r.Ok? ==> r.value.next == i + 2 < |ts|
    ensures r.Ok? ==> r.value.value.Info? && r.value.value.kind == Nearby && r.value.value.dir.Some?
    decreases |ts| - i, 3
  {
    var kw :- Consume(ts, i, NEARBY, ExpectedNearby);
    var dir :- DirectionAt(ts, kw.next);
    Ok(Parsed(Info(Nearby, Some(dir.value)), dir.next))
  }
}
