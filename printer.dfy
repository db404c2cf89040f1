/** A printer for strategies: the token list and the source text of a strategy. It is
    the partner of the parser: printing a printable strategy and parsing the text gives
    the strategy back (module RoundTrip). */
module Printer {
  import opened Tokens
  import opened Ast
  import opened Lexer
  import LexerFacts

  /** The character of a decimal digit. */
  function DigitChar(d: nat): (c: char)
    requires d < 10
    ensures IsDigit(c) && c as int - '0' as int == d
  {
    ('0' as int + d) as char
  }

  /** The decimal numeral of `n`, without leading zeros. */
  function Numeral(n: nat): string {
    if n < 10 then [DigitChar(n)] else Numeral(n / 10) + [DigitChar(n % 10)]
  }

  /** A numeral is a digit run whose value is the number: `Numeral` inverts `DecimalValue`. */
  lemma {:induction false} NumeralValue(n: nat)
    ensures var s := Numeral(n); |s| > 0 && IsDigits(s) && DecimalValue(s) == n
  {
    if n >= 10 {
      NumeralValue(n / 10);
      var s := Numeral(n);
      assert s[..|s| - 1] == Numeral(n / 10);
    }
  }

  /** `Long.parseLong` reads a printed numeral of a `long` back as the same number. */
  lemma NumeralParses(n: nat)
    requires n <= MaxLong
    ensures var s := Numeral(n); |s| > 0 && IsDigits(s) && ParseLong(s) == Some(n as Long)
  {
    NumeralValue(n);
  }

  /** A word or symbol token as the printer emits it: no value, and no position (the
      position is the one thing the text gives it). */
  function Word(kind: TokenType, text: string): Token {
    Token(kind, text, 0, 0)
  }

  /** A name the printer can write: a letter-initial word that is not a keyword. */
  predicate IsName(w: string) {
    LexerFacts.IsWord(w) && KeywordKind(w).None?
  }

  predicate IsOperatorLexeme(op: string) {
    op in AddOps || op in MulOps || op == PowOp
  }

  /** The token type of an operator lexeme (IDENT for any other string). */
  function OperatorKind(op: string): TokenType {
    if op == "+" then PLUS
    else if op == "-" then MINUS
    else if op == "*" then STAR
    else if op == "/" then SLASH
    else if op == "%" then PERCENT
    else if op == "^" then CARET
    else IDENT
  }

  function DirectionToken(d: Direction): Token {
    match d
    case Up => Word(UP, "up")
    case Down => Word(DOWN, "down")
    case UpLeft => Word(UPLEFT, "upleft")
    case UpRight => Word(UPRIGHT, "upright")
    case DownLeft => Word(DOWNLEFT, "downleft")
    case DownRight => Word(DOWNRIGHT, "downright")
  }

  /** An expression the printer can write: numbers are not negative, variables are names
      and operators are the six operator characters. */
  predicate PrintableExpr(e: Expr) {
    match e
    case Num(v) => v >= 0
    case Var(name) => IsName(name)
    case Binary(op, left, right) => IsOperatorLexeme(op) && PrintableExpr(left) && PrintableExpr(right)
    case Paren(inner) => PrintableExpr(inner)
    case Info(_, _) => true
  }

  /** A statement the printer can write: assigned names are names and every expression in
      it is printable. */
  predicate PrintableStmt(s: Stmt) {
    match s
    case Assign(name, value) => IsName(name) && PrintableExpr(value)
    case Done => true
    case Move(_) => true
    case Shoot(_, expenditure) => PrintableExpr(expenditure)
    case Block(statements) => forall t | t in statements :: PrintableStmt(t)
    case If(cond, thenBranch, elseBranch) => PrintableExpr(cond) && PrintableStmt(thenBranch) && PrintableStmt(elseBranch)
    case While(cond, body) => PrintableExpr(cond) && PrintableStmt(body)
  }

  function InfoTokens(kind: InfoKind, dir: Option<Direction>): seq<Token> {
    match kind
    case Ally => [Word(ALLY, "ally")]
    case Opponent => [Word(OPPONENT, "opponent")]
    case Nearby => [Word(NEARBY, "nearby")] + (if dir.Some? then [DirectionToken(dir.value)] else [])
  }

  /** The tokens of an expression, operands and operators in order; a Paren node is
      written with its parentheses. */
  function ExprTokens(e: Expr): seq<Token>
    decreases e, 0
  {
    match e
    case Num(v) => [Token(NUMBER, if v >= 0 then Numeral(v as nat) else "-" + Numeral(-(v as int) as nat), v, 0)]
    case Var(name) => [Word(IDENT, name)]
    case Binary(op, left, right) => OperandTokens(left) + [Word(OperatorKind(op), op)] + OperandTokens(right)
    case Paren(inner) => [Word(LPAREN, "(")] + OperandTokens(inner) + [Word(RPAREN, ")")]
    case Info(kind, dir) => InfoTokens(kind, dir)
  }

  /** The tokens of a sub-expression. They are `ExprTokens`, two calls away, so that a
      proof about a printed expression sees its operands only as deep as it looks. */
  function OperandTokens(e: Expr): seq<Token>
    decreases e, 2
  {
    OperandTokensStep(e)
  }

  function OperandTokensStep(e: Expr): seq<Token>
    decreases e, 1
  {
    ExprTokens(e)
  }

  function StmtTokens(s: Stmt): seq<Token>
    decreases s, 0
  {
    match s
    case Assign(name, value) => [Word(IDENT, name), Word(EQUAL, "=")] + OperandTokens(value)
    case Done => [Word(DONE, "done")]
    case Move(dir) => [Word(MOVE, "move"), DirectionToken(dir)]
    case Shoot(dir, expenditure) => [Word(SHOOT, "shoot"), DirectionToken(dir)] + OperandTokens(expenditure)
    case Block(statements) => [Word(LBRACE, "{")] + StmtsTokens(statements) + [Word(RBRACE, "}")]
    case If(cond, thenBranch, elseBranch) =>
      [Word(IF, "if"), Word(LPAREN, "(")] + OperandTokens(cond) + [Word(RPAREN, ")"), Word(THEN, "then")]
      + PartTokens(thenBranch) + [Word(ELSE, "else")] + PartTokens(elseBranch)
    case While(cond, body) =>
      [Word(WHILE, "while"), Word(LPAREN, "(")] + OperandTokens(cond) + [Word(RPAREN, ")")] + PartTokens(body)
  }

  /** The tokens of a statement inside another, two calls away like `OperandTokens`. */
  function PartTokens(s: Stmt): seq<Token>
    decreases s, 2
  {
    PartTokensStep(s)
  }

  function PartTokensStep(s: Stmt): seq<Token>
    decreases s, 1
  {
    StmtTokens(s)
  }

  function StmtsTokens(ss: seq<Stmt>): seq<Token>
    decreases ss
  {
    if ss == [] then [] else PartTokens(ss[0]) + StmtsTokens(ss[1..])
  }

  /** The text of a token list: each lexeme preceded by one space. */
  function Text(us: seq<Token>): string {
    if us == [] then "" else " " + us[0].lexeme + Text(us[1..])
  }

  /** The source text of a strategy. */
  function Print(prog: seq<Stmt>): string {
    Text(StmtsTokens(prog))
  }
}
