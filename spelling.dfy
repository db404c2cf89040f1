/** Where printed tokens sit in a token list. `Spells` says that a list holds given
    tokens from some index on; `SpellsExpr`, `SpellsStmt` and `SpellsStmts` say the same of
    the printed form of a tree, one token fact per node, with the lengths `ExprLen`,
    `StmtLen` and `StmtsLen` of the printed forms. The bridge lemmas at the end show the
    two descriptions agree. */
module Spelling {
  import opened Tokens
  import opened Ast
  import opened Printer

  // ---------------------------------------------------------------------------------
  // Token lists that hold given tokens
  // ---------------------------------------------------------------------------------

  /** Two tokens agree on everything but their position. */
  predicate Same(t: Token, u: Token) {
    t.kind == u.kind && t.lexeme == u.lexeme && t.value == u.value
  }

  /** The `k`th token of `us`. Spellings are stated through it, so that the solver
      compares two lists at an index only where a proof names that index. */
  function TokenAt(us: seq<Token>, k: nat): Token
    requires k < |us|
  {
    us[k]
  }

  /** From index `i` on, `ts` holds tokens that agree with `us`, one for one. */
  predicate Spells(ts: seq<Token>, i: nat, us: seq<Token>) {
    i + |us| <= |ts| && forall k {:trigger TokenAt(us, k)} | 0 <= k < |us| :: Same(ts[i + k], TokenAt(us, k))
  }

  lemma SpellsConcat(ts: seq<Token>, i: nat, a: seq<Token>, b: seq<Token>)
    requires Spells(ts, i, a + b)
    ensures Spells(ts, i, a) && Spells(ts, i + |a|, b)
  {
    forall k | 0 <= k < |a|
      ensures Same(ts[i + k], TokenAt(a, k))
    {
      assert Same(ts[i + k], TokenAt(a + b, k));
    }
    forall k | 0 <= k < |b|
      ensures Same(ts[i + |a| + k], TokenAt(b, k))
    {
      assert Same(ts[i + (|a| + k)], TokenAt(a + b, |a| + k));
    }
  }

  lemma SpellsOne(ts: seq<Token>, i: nat, u: Token)
    requires Spells(ts, i, [u])
    ensures i < |ts| && Same(ts[i], u)
  {
    assert Same(ts[i + 0], TokenAt([u], 0));
  }

  lemma SpellsAt(ts: seq<Token>, i: nat, us: seq<Token>, k: nat)
    requires Spells(ts, i, us) && k < |us|
    ensures i + k < |ts| && Same(ts[i + k], us[k])
  {
    assert Same(ts[i + k], TokenAt(us, k));
  }

  lemma SpellsThree(ts: seq<Token>, i: nat, a: seq<Token>, b: seq<Token>, c: seq<Token>)
    requires Spells(ts, i, a + b + c)
    ensures Spells(ts, i, a) && Spells(ts, i + |a|, b) && Spells(ts, i + |a| + |b|, c)
  {
    SpellsConcat(ts, i, a + b, c);
    SpellsConcat(ts, i, a, b);
  }

  // ---------------------------------------------------------------------------------
  // The printed form, node by node
  // ---------------------------------------------------------------------------------

  /** The number of tokens the printer writes for an expression. */
  function ExprLen(e: Expr): nat {
    match e
    case Num(_) => 1
    case Var(_) => 1
    case Binary(_, left, right) => ExprLen(left) + 1 + ExprLen(right)
    case Paren(inner) => ExprLen(inner) + 2
    case Info(kind, dir) => if kind == Nearby && dir.Some? then 2 else 1
  }

  function StmtLen(s: Stmt): nat
    decreases s
  {
    match s
    case Assign(_, value) => 2 + ExprLen(value)
    case Done => 1
    case Move(_) => 2
    case Shoot(_, expenditure) => 2 + ExprLen(expenditure)
    case Block(statements) => StmtsLen(statements) + 2
    case If(cond, thenBranch, elseBranch) => 2 + ExprLen(cond) + 2 + StmtLen(thenBranch) + 1 + StmtLen(elseBranch)
    case While(cond, body) => 2 + ExprLen(cond) + 1 + StmtLen(body)
  }

  function StmtsLen(ss: seq<Stmt>): nat
    decreases ss
  {
    if ss == [] then 0 else StmtLen(ss[0]) + StmtsLen(ss[1..])
  }

  /** The token type of the word that names a piece of game information. */
  function InfoKeyword(kind: InfoKind): TokenType {
    match kind
    case Ally => ALLY
    case Opponent => OPPONENT
    case Nearby => NEARBY
  }

  /** From `i` on, `ts` holds the printed form of `e`: the value of each number, the name
      of each variable, the type and lexeme of each operator, and the type of each
      parenthesis, information word and direction. */
  predicate SpellsExpr(ts: seq<Token>, i: nat, e: Expr)
    decreases e, 0
  {
    match e
    case Num(v) => i < |ts| && ts[i].kind == NUMBER && ts[i].value == v
    case Var(name) => i < |ts| && ts[i].kind == IDENT && ts[i].lexeme == name
    case Binary(op, left, right) =>
      var at := i + ExprLen(left);
      SpellsSub(ts, i, left) && at < |ts| && ts[at].kind == OperatorKind(op) && ts[at].lexeme == op
      && SpellsSub(ts, at + 1, right)
    case Paren(inner) =>
      var close := i + 1 + ExprLen(inner);
      i < |ts| && ts[i].kind == LPAREN && SpellsSub(ts, i + 1, inner) && close < |ts| && ts[close].kind == RPAREN
    case Info(kind, dir) =>
      i < |ts| && ts[i].kind == InfoKeyword(kind)
      && (kind == Nearby && dir.Some? ==> i + 1 < |ts| && ts[i + 1].kind == DirectionToken(dir.value).kind)
  }

  /** `SpellsExpr` for an operand: the same predicate, one call away, so that the solver
      unfolds a spelling one node at a time. */
  predicate SpellsSub(ts: seq<Token>, i: nat, e: Expr)
    decreases e, 2
  {
    SpellsSubStep(ts, i, e)
  }

  predicate SpellsSubStep(ts: seq<Token>, i: nat, e: Expr)
    decreases e, 1
  {
    SpellsExpr(ts, i, e)
  }

  /** From `i` on, `ts` holds the printed form of `s`: its keywords and punctuation by
      type, assigned names by lexeme, directions by type, and its parts in order. */
  predicate SpellsStmt(ts: seq<Token>, i: nat, s: Stmt)
    decreases s, 0
  {
    match s
    case Assign(name, value) =>
      i + 1 < |ts| && ts[i].kind == IDENT && ts[i].lexeme == name && ts[i + 1].kind == EQUAL
      && SpellsSub(ts, i + 2, value)
    case Done => i < |ts| && ts[i].kind == DONE
    case Move(dir) => i + 1 < |ts| && ts[i].kind == MOVE && ts[i + 1].kind == DirectionToken(dir).kind
    case Shoot(dir, expenditure) =>
      i + 1 < |ts| && ts[i].kind == SHOOT && ts[i + 1].kind == DirectionToken(dir).kind
      && SpellsSub(ts, i + 2, expenditure)
    case Block(statements) =>
      var close := i + 1 + StmtsLen(statements);
      i < |ts| && ts[i].kind == LBRACE && SpellsStmts(ts, i + 1, statements)
      && close < |ts| && ts[close].kind == RBRACE
    case If(cond, thenBranch, elseBranch) =>
      var p1 := i + 2 + ExprLen(cond);
      var p2 := p1 + 2 + StmtLen(thenBranch);
      i + 1 < |ts| && ts[i].kind == IF && ts[i + 1].kind == LPAREN && SpellsSub(ts, i + 2, cond)
      && p1 + 1 < |ts| && ts[p1].kind == RPAREN && ts[p1 + 1].kind == THEN
      && SpellsPart(ts, p1 + 2, thenBranch)
      && p2 < |ts| && ts[p2].kind == ELSE && SpellsPart(ts, p2 + 1, elseBranch)
    case While(cond, body) =>
      var p := i + 2 + ExprLen(cond);
      i + 1 < |ts| && ts[i].kind == WHILE && ts[i + 1].kind == LPAREN && SpellsSub(ts, i + 2, cond)
      && p < |ts| && ts[p].kind == RPAREN && SpellsPart(ts, p + 1, body)
  }

  /** `SpellsStmt` for a branch or body, one call away like `SpellsSub`. */
  predicate SpellsPart(ts: seq<Token>, i: nat, s: Stmt)
    decreases s, 2
  {
    SpellsPartStep(ts, i, s)
  }

  predicate SpellsPartStep(ts: seq<Token>, i: nat, s: Stmt)
    decreases s, 1
  {
    SpellsStmt(ts, i, s)
  }

  predicate SpellsStmts(ts: seq<Token>, i: nat, ss: seq<Stmt>)
    decreases ss
  {
    ss != [] ==> SpellsPart(ts, i, ss[0]) && SpellsStmts(ts, i + StmtLen(ss[0]), ss[1..])
  }

  // ---------------------------------------------------------------------------------
  // Moving a spelling from one list to another
  // ---------------------------------------------------------------------------------

  lemma SpellsAppend(a: seq<Token>, b: seq<Token>)
    ensures Spells(a + b, 0, a) && Spells(a + b, |a|, b)
  {
    forall k | 0 <= k < |a|
      ensures Same((a + b)[0 + k], TokenAt(a, k))
    {
    }
    forall k | 0 <= k < |b|
      ensures Same((a + b)[|a| + k], TokenAt(b, k))
    {
    }
  }

  // ---------------------------------------------------------------------------------
  // From the printed token list to the node-by-node spelling
  // ---------------------------------------------------------------------------------

  /** A list that holds the printed tokens of an operand `e` spells `e` node by node,
      and the printed form has `ExprLen(e)` tokens. */
  lemma {:induction false} OperandSpelled(ts: seq<Token>, i: nat, e: Expr)
    requires Spells(ts, i, OperandTokens(e))
    ensures |OperandTokens(e)| == ExprLen(e) && SpellsSub(ts, i, e)
    decreases e, 1
  {
    assert OperandTokens(e) == OperandTokensStep(e) == ExprTokens(e);
    match e
    case Num(_) => SpellsAt(ts, i, ExprTokens(e), 0);
    case Var(_) => SpellsAt(ts, i, ExprTokens(e), 0);
    case Binary(_, _, _) => BinarySpelled(ts, i, e);
    case Paren(_) => ParenSpelled(ts, i, e);
    case Info(kind, dir) =>
      SpellsAt(ts, i, ExprTokens(e), 0);
      if kind == Nearby && dir.Some? {
        SpellsAt(ts, i, ExprTokens(e), 1);
      }
    assert SpellsExpr(ts, i, e);
    assert SpellsSubStep(ts, i, e);
  }

  lemma {:induction false} BinarySpelled(ts: seq<Token>, i: nat, e: Expr)
    requires e.Binary? && Spells(ts, i, ExprTokens(e))
    ensures |ExprTokens(e)| == ExprLen(e) && SpellsExpr(ts, i, e)
    decreases e, 0
  {
    var operator := Word(OperatorKind(e.op), e.op);
    SpellsThree(ts, i, OperandTokens(e.left), [operator], OperandTokens(e.right));
    OperandSpelled(ts, i, e.left);
    SpellsOne(ts, i + ExprLen(e.left), operator);
    OperandSpelled(ts, i + ExprLen(e.left) + 1, e.right);
  }

  lemma {:induction false} ParenSpelled(ts: seq<Token>, i: nat, e: Expr)
    requires e.Paren? && Spells(ts, i, ExprTokens(e))
    ensures |ExprTokens(e)| == ExprLen(e) && SpellsExpr(ts, i, e)
    decreases e, 0
  {
    SpellsThree(ts, i, [Word(LPAREN, "(")], OperandTokens(e.inner), [Word(RPAREN, ")")]);
    SpellsOne(ts, i, Word(LPAREN, "("));
    OperandSpelled(ts, i + 1, e.inner);
    SpellsOne(ts, i + 1 + ExprLen(e.inner), Word(RPAREN, ")"));
  }

  /** A list that holds the printed tokens of a statement `s` inside another spells `s`
      node by node, and the printed form has `StmtLen(s)` tokens. */
  lemma {:induction false} PartSpelled(ts: seq<Token>, i: nat, s: Stmt)
    requires Spells(ts, i, PartTokens(s))
    ensures |PartTokens(s)| == StmtLen(s) && SpellsPart(ts, i, s)
    decreases s, 1
  {
    assert PartTokens(s) == PartTokensStep(s) == StmtTokens(s);
    match s
    case Assign(_, _) => AssignSpelled(ts, i, s);
    case Done =>
      SpellsAt(ts, i, StmtTokens(s), 0);
    case Move(_) =>
      SpellsAt(ts, i, StmtTokens(s), 0);
      SpellsAt(ts, i, StmtTokens(s), 1);
    case Shoot(_, _) => ShootSpelled(ts, i, s);
    case Block(_) => BlockSpelled(ts, i, s);
    case If(_, _, _) => IfSpelled(ts, i, s);
    case While(_, _) => WhileSpelled(ts, i, s);
    assert SpellsStmt(ts, i, s);
    assert SpellsPartStep(ts, i, s);
  }

  lemma {:induction false} AssignSpelled(ts: seq<Token>, i: nat, s: Stmt)
    requires s.Assign? && Spells(ts, i, StmtTokens(s))
    ensures |StmtTokens(s)| == StmtLen(s) && SpellsStmt(ts, i, s)
    decreases s, 0
  {
    var head := [Word(IDENT, s.name), Word(EQUAL, "=")];
    SpellsConcat(ts, i, head, OperandTokens(s.value));
    SpellsAt(ts, i, head, 0);
    SpellsAt(ts, i, head, 1);
    OperandSpelled(ts, i + 2, s.value);
  }

  lemma {:induction false} ShootSpelled(ts: seq<Token>, i: nat, s: Stmt)
    requires s.Shoot? && Spells(ts, i, StmtTokens(s))
    ensures |StmtTokens(s)| == StmtLen(s) && SpellsStmt(ts, i, s)
    decreases s, 0
  {
    var head := [Word(SHOOT, "shoot"), DirectionToken(s.dir)];
    SpellsConcat(ts, i, head, OperandTokens(s.expenditure));
    SpellsAt(ts, i, head, 0);
    SpellsAt(ts, i, head, 1);
    OperandSpelled(ts, i + 2, s.expenditure);
  }

  lemma {:induction false} BlockSpelled(ts: seq<Token>, i: nat, s: Stmt)
    requires s.Block? && Spells(ts, i, StmtTokens(s))
    ensures |StmtTokens(s)| == StmtLen(s) && SpellsStmt(ts, i, s)
    decreases s, 0
  {
    SpellsThree(ts, i, [Word(LBRACE, "{")], StmtsTokens(s.statements), [Word(RBRACE, "}")]);
    SpellsOne(ts, i, Word(LBRACE, "{"));
    StmtsSpelled(ts, i + 1, s.statements);
    SpellsOne(ts, i + 1 + StmtsLen(s.statements), Word(RBRACE, "}"));
  }

  /** The printed tokens of an `if` statement, piece by piece. */
  lemma IfPieces(ts: seq<Token>, i: nat, s: Stmt, p1: nat, p2: nat)
    requires s.If? && Spells(ts, i, StmtTokens(s))
    requires p1 == i + 2 + |OperandTokens(s.cond)| && p2 == p1 + 2 + |PartTokens(s.thenBranch)|
    ensures |StmtTokens(s)| == p2 + 1 + |PartTokens(s.elseBranch)| - i
    ensures i + 1 < |ts| && ts[i].kind == IF && ts[i + 1].kind == LPAREN
    ensures Spells(ts, i + 2, OperandTokens(s.cond))
    ensures p1 + 1 < |ts| && ts[p1].kind == RPAREN && ts[p1 + 1].kind == THEN
    ensures Spells(ts, p1 + 2, PartTokens(s.thenBranch))
    ensures p2 < |ts| && ts[p2].kind == ELSE
    ensures Spells(ts, p2 + 1, PartTokens(s.elseBranch))
  {
    var head := [Word(IF, "if"), Word(LPAREN, "(")];
    var close := [Word(RPAREN, ")"), Word(THEN, "then")];
    var otherwise := [Word(ELSE, "else")];
    var cond := OperandTokens(s.cond);
    var thenPart := PartTokens(s.thenBranch);
    SpellsConcat(ts, i, head + cond + close + thenPart + otherwise, PartTokens(s.elseBranch));
    SpellsConcat(ts, i, head + cond + close + thenPart, otherwise);
    SpellsConcat(ts, i, head + cond + close, thenPart);
    SpellsConcat(ts, i, head + cond, close);
    SpellsConcat(ts, i, head, cond);
    SpellsAt(ts, i, head, 0);
    SpellsAt(ts, i, head, 1);
    SpellsAt(ts, p1, close, 0);
    SpellsAt(ts, p1, close, 1);
    SpellsAt(ts, p2, otherwise, 0);
  }

  /** The pieces of an `if`, each spelled where the statement's spelling expects it. */
  lemma IfAssembled(ts: seq<Token>, i: nat, s: Stmt, p1: nat, p2: nat)
    requires s.If? && p1 == i + 2 + ExprLen(s.cond) && p2 == p1 + 2 + StmtLen(s.thenBranch)
    requires i + 1 < |ts| && ts[i].kind == IF && ts[i + 1].kind == LPAREN
    requires SpellsSub(ts, i + 2, s.cond)
    requires p1 + 1 < |ts| && ts[p1].kind == RPAREN && ts[p1 + 1].kind == THEN
    requires SpellsPart(ts, p1 + 2, s.thenBranch)
    requires p2 < |ts| && ts[p2].kind == ELSE && SpellsPart(ts, p2 + 1, s.elseBranch)
    ensures SpellsStmt(ts, i, s)
  {
  }

  lemma {:induction false} IfSpelled(ts: seq<Token>, i: nat, s: Stmt)
    requires s.If? && Spells(ts, i, StmtTokens(s))
    ensures |StmtTokens(s)| == StmtLen(s) && SpellsStmt(ts, i, s)
    decreases s, 0
  {
    var p1 := i + 2 + |OperandTokens(s.cond)|;
    var p2 := p1 + 2 + |PartTokens(s.thenBranch)|;
    IfPieces(ts, i, s, p1, p2);
    OperandSpelled(ts, i + 2, s.cond);
    PartSpelled(ts, p1 + 2, s.thenBranch);
    PartSpelled(ts, p2 + 1, s.elseBranch);
    IfAssembled(ts, i, s, p1, p2);
  }

  lemma {:induction false} WhileSpelled(ts: seq<Token>, i: nat, s: Stmt)
    requires s.While? && Spells(ts, i, StmtTokens(s))
    ensures |StmtTokens(s)| == StmtLen(s) && SpellsStmt(ts, i, s)
    decreases s, 0
  {
    var head := [Word(WHILE, "while"), Word(LPAREN, "(")];
    var close := [Word(RPAREN, ")")];
    SpellsConcat(ts, i, head + OperandTokens(s.cond) + close, PartTokens(s.body));
    SpellsThree(ts, i, head, OperandTokens(s.cond), close);
    SpellsAt(ts, i, head, 0);
    SpellsAt(ts, i, head, 1);
    OperandSpelled(ts, i + 2, s.cond);
    var p := i + 2 + ExprLen(s.cond);
    SpellsAt(ts, p, close, 0);
    PartSpelled(ts, p + 1, s.body);
  }

  lemma {:induction false} StmtsSpelled(ts: seq<Token>, i: nat, ss: seq<Stmt>)
    requires Spells(ts, i, StmtsTokens(ss))
    ensures |StmtsTokens(ss)| == StmtsLen(ss) && SpellsStmts(ts, i, ss)
    decreases ss
  {
    if ss != [] {
      SpellsConcat(ts, i, PartTokens(ss[0]), StmtsTokens(ss[1..]));
      PartSpelled(ts, i, ss[0]);
      StmtsSpelled(ts, i + StmtLen(ss[0]), ss[1..]);
    }
  }
}
