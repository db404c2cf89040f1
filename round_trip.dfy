/** Printing then parsing gives the strategy back. The parser reads any token list that
    spells a well-shaped strategy node by node (module Spelling) back into that strategy,
    and the printer's own token list is such a list. */
module RoundTrip {
  import opened Tokens
  import opened Errors
  import opened Ast
  import opened Printer
  import opened Spelling
  import Grammar
  import StrategyParser

  // ---------------------------------------------------------------------------------
  // What a rule of the grammar reads. Each fact stands behind its own name, so that a
  // proof opens one rule at a time.
  // ---------------------------------------------------------------------------------

  /** `Primary` reads `e` from `i` and stops at `j`. */
  predicate ReadsPrimary(ts: seq<Token>, i: nat, e: Expr, j: nat) {
    Grammar.At(ts, i) && Grammar.Primary(ts, i) == Ok(Parsed(e, j))
  }

  /** `ParenExpression` reads `e` from `i` and stops at `j`. */
  predicate ReadsParen(ts: seq<Token>, i: nat, e: Expr, j: nat) {
    Grammar.At(ts, i) && Grammar.ParenExpression(ts, i) == Ok(Parsed(e, j))
  }

  /** `Power` reads `e` from `i` and stops at `j`. */
  predicate ReadsPower(ts: seq<Token>, i: nat, e: Expr, j: nat) {
    Grammar.At(ts, i) && Grammar.Power(ts, i) == Ok(Parsed(e, j))
  }

  /** `MulDivMod` from `i` comes to its `*`/`/`/`%` loop at `j` with `e` read so far. */
  predicate ReadsProduct(ts: seq<Token>, i: nat, e: Expr, j: nat) {
    Grammar.At(ts, i) && Grammar.AfterPower(ts, j)
    && Grammar.MulDivMod(ts, i) == Grammar.MulDivModTail(ts, e, j)
  }

  /** `AddSub` from `i` comes to its `+`/`-` loop at `j` with `e` read so far. */
  predicate ReadsSum(ts: seq<Token>, i: nat, e: Expr, j: nat) {
    Grammar.At(ts, i) && Grammar.AfterProduct(ts, j)
    && Grammar.AddSub(ts, i) == Grammar.AddSubTail(ts, e, j)
  }

  /** `Expression` reads `e` from `i` and stops at `j`. */
  predicate ReadsExpr(ts: seq<Token>, i: nat, e: Expr, j: nat) {
    Grammar.At(ts, i) && Grammar.Expression(ts, i) == Ok(Parsed(e, j))
  }

  /** `Statement` reads `s` from `i` and stops at `j`. */
  predicate ReadsStmt(ts: seq<Token>, i: nat, s: Stmt, j: nat) {
    Grammar.At(ts, i) && Grammar.Statement(ts, i) == Ok(Parsed(s, j))
  }

  /** `AssignmentStatement` reads `s` from `i` and stops at `j`. */
  predicate ReadsAssign(ts: seq<Token>, i: nat, s: Stmt, j: nat) {
    Grammar.At(ts, i) && Grammar.AssignmentStatement(ts, i) == Ok(Parsed(s, j))
  }

  /** `ShootStatement` reads `s` from `i` and stops at `j`. */
  predicate ReadsShoot(ts: seq<Token>, i: nat, s: Stmt, j: nat) {
    Grammar.At(ts, i) && Grammar.ShootStatement(ts, i) == Ok(Parsed(s, j))
  }

  /** `BlockStatement` reads `s` from `i` and stops at `j`. */
  predicate ReadsBlock(ts: seq<Token>, i: nat, s: Stmt, j: nat) {
    Grammar.At(ts, i) && Grammar.BlockStatement(ts, i) == Ok(Parsed(s, j))
  }

  /** `IfStatement` reads `s` from `i` and stops at `j`. */
  predicate ReadsIf(ts: seq<Token>, i: nat, s: Stmt, j: nat) {
    Grammar.At(ts, i) && Grammar.IfStatement(ts, i) == Ok(Parsed(s, j))
  }

  /** `WhileStatement` reads `s` from `i` and stops at `j`. */
  predicate ReadsWhile(ts: seq<Token>, i: nat, s: Stmt, j: nat) {
    Grammar.At(ts, i) && Grammar.WhileStatement(ts, i) == Ok(Parsed(s, j))
  }

  /** The block loop, started at `i` with `acc` read before, ends at `j` with `ss`. */
  predicate ReadsItems(ts: seq<Token>, i: nat, acc: seq<Stmt>, ss: seq<Stmt>, j: nat) {
    Grammar.At(ts, i) && Grammar.BlockItems(ts, i, acc) == Ok(Parsed(ss, j))
  }

  /** The strategy loop, started at `i` with `acc` read before, ends at `j` with `ss`. */
  predicate ReadsUntilEnd(ts: seq<Token>, i: nat, acc: seq<Stmt>, ss: seq<Stmt>, j: nat) {
    Grammar.At(ts, i) && Grammar.StatementsUntilEnd(ts, i, acc) == Ok(Parsed(ss, j))
  }

  // ---------------------------------------------------------------------------------
  // Expressions
  // ---------------------------------------------------------------------------------

  lemma DirectionTokenRead(d: Direction)
    ensures Grammar.DirectionOf(DirectionToken(d).kind) == Some(d)
  {
  }

  /** A spelled primary is read back by `Primary`, up to the token after it. */
  lemma {:induction false} PrimaryRoundTrip(ts: seq<Token>, i: nat, e: Expr, j: nat)
    requires EndsWithEof(ts) && IsPrimary(e)
    requires SpellsSub(ts, i, e) && j == i + ExprLen(e) && j < |ts|
    ensures ReadsPrimary(ts, i, e, j)
    decreases e, 1
  {
    assert SpellsSubStep(ts, i, e);
    assert SpellsExpr(ts, i, e);
    match e
    case Num(_) =>
    case Var(_) =>
    case Paren(inner) =>
      ParenRoundTrip(ts, i, e, j);
    case Info(kind, dir) =>
      if kind == Nearby {
        DirectionTokenRead(dir.value);
        assert Grammar.NearbyExpression(ts, i) == Ok(Parsed(e, i + 2));
      }
  }

  lemma {:induction false} ParenRoundTrip(ts: seq<Token>, i: nat, e: Expr, j: nat)
    requires e.Paren? && EndsWithEof(ts) && IsSum(e.inner)
    requires SpellsExpr(ts, i, e) && j == i + ExprLen(e) && j < |ts|
    ensures ReadsParen(ts, i, e, j)
    decreases e, 0
  {
    ExpressionRoundTrip(ts, i + 1, e.inner, j - 1);
    ParenParsed(ts, i, e, j - 1, j);
  }

  lemma ParenParsed(ts: seq<Token>, i: nat, e: Expr, k: nat, j: nat)
    requires e.Paren? && ReadsExpr(ts, i + 1, e.inner, k) && j == k + 1
    requires ts[i].kind == LPAREN && ts[k].kind == RPAREN
    ensures ReadsParen(ts, i, e, j)
  {
    assert Grammar.Consume(ts, i, LPAREN, ExpectedLParen) == Ok(Parsed(ts[i], i + 1));
    assert Grammar.Consume(ts, k, RPAREN, ExpectedRParen) == Ok(Parsed(ts[k], j));
  }

  /** A spelled power is read back by `Power` when the token after it is not `^`. */
  lemma {:induction false} PowerRoundTrip(ts: seq<Token>, i: nat, e: Expr, j: nat)
    requires EndsWithEof(ts) && IsPower(e)
    requires SpellsSub(ts, i, e) && j == i + ExprLen(e) && Grammar.AfterPower(ts, j)
    ensures ReadsPower(ts, i, e, j)
    decreases e, 2
  {
    if e.Binary? && e.op == PowOp {
      PowerBinaryRoundTrip(ts, i, e, j);
    } else {
      PrimaryRoundTrip(ts, i, e, j);
      PowerStop(ts, i, e, j);
    }
  }

  /** The `^` case of `PowerRoundTrip`: the primary on the left, then the power on the right. */
  lemma {:induction false} PowerBinaryRoundTrip(ts: seq<Token>, i: nat, e: Expr, j: nat)
    requires EndsWithEof(ts) && IsPower(e) && e.Binary? && e.op == PowOp
    requires SpellsSub(ts, i, e) && j == i + ExprLen(e) && Grammar.AfterPower(ts, j)
    ensures ReadsPower(ts, i, e, j)
    decreases e, 1
  {
    assert SpellsSubStep(ts, i, e);
    assert SpellsExpr(ts, i, e);
    var at := i + ExprLen(e.left);
    PrimaryRoundTrip(ts, i, e.left, at);
    PowerRoundTrip(ts, at + 1, e.right, j);
    PowerExtend(ts, i, e, at, j);
  }

  /** A spelled product is read by `MulDivMod` as far as the `*`/`/`/`%` loop, which then
      stands just after it with the whole product as its left operand. */
  lemma {:induction false} ProductRoundTrip(ts: seq<Token>, i: nat, e: Expr, j: nat)
    requires EndsWithEof(ts) && IsProduct(e)
    requires SpellsSub(ts, i, e) && j == i + ExprLen(e) && Grammar.AfterPower(ts, j)
    ensures ReadsProduct(ts, i, e, j)
    decreases e, 3
  {
    if e.Binary? && e.op in MulOps {
      assert SpellsSubStep(ts, i, e);
      assert SpellsExpr(ts, i, e);
      var at := i + ExprLen(e.left);
      ProductRoundTrip(ts, i, e.left, at);
      PowerRoundTrip(ts, at + 1, e.right, j);
      ProductExtend(ts, i, e, at, j);
    } else {
      PowerRoundTrip(ts, i, e, j);
      ProductStart(ts, i, e, j);
    }
  }

  /** A spelled sum is read by `AddSub` as far as the `+`/`-` loop, which then stands just
      after it with the whole sum as its left operand. */
  lemma {:induction false} SumRoundTrip(ts: seq<Token>, i: nat, e: Expr, j: nat)
    requires EndsWithEof(ts) && IsSum(e)
    requires SpellsSub(ts, i, e) && j == i + ExprLen(e) && Grammar.AfterProduct(ts, j)
    ensures ReadsSum(ts, i, e, j)
    decreases e, 4
  {
    if e.Binary? && e.op in AddOps {
      assert SpellsSubStep(ts, i, e);
      assert SpellsExpr(ts, i, e);
      var at := i + ExprLen(e.left);
      SumRoundTrip(ts, i, e.left, at);
      ProductRoundTrip(ts, at + 1, e.right, j);
      SumExtend(ts, i, e, at, j);
    } else {
      ProductRoundTrip(ts, i, e, j);
      SumStart(ts, i, e, j);
    }
  }

  /** A spelled expression is read back by `Expression` when no operator follows it. */
  lemma ExpressionRoundTrip(ts: seq<Token>, i: nat, e: Expr, j: nat)
    requires EndsWithEof(ts) && IsSum(e)
    requires SpellsSub(ts, i, e) && j == i + ExprLen(e) && j < |ts|
    requires !Grammar.IsOperator(ts[j].kind)
    ensures ReadsExpr(ts, i, e, j)
    decreases e, 5
  {
    SumRoundTrip(ts, i, e, j);
    ExpressionStop(ts, i, e, j);
  }

  // The steps of the expression rules that the round trip takes, each stated on the
  // grammar alone.

  /** A primary not followed by `^` is a whole power. */
  lemma PowerStop(ts: seq<Token>, i: nat, e: Expr, j: nat)
    requires ReadsPrimary(ts, i, e, j) && Grammar.AfterPower(ts, j)
    ensures ReadsPower(ts, i, e, j)
  {
  }

  /** A primary, `^` and a power make a power. */
  lemma PowerExtend(ts: seq<Token>, i: nat, e: Expr, at: nat, j: nat)
    requires e.Binary? && ReadsPrimary(ts, i, e.left, at) && ReadsPower(ts, at + 1, e.right, j)
    requires ts[at].kind == CARET && ts[at].lexeme == e.op
    ensures ReadsPower(ts, i, e, j)
  {
  }

  /** A power is where a product starts. */
  lemma ProductStart(ts: seq<Token>, i: nat, e: Expr, j: nat)
    requires ReadsPower(ts, i, e, j)
    ensures ReadsProduct(ts, i, e, j)
  {
  }

  /** A product read as far as its last operator, followed by a whole power. */
  lemma ProductExtend(ts: seq<Token>, i: nat, e: Expr, at: nat, j: nat)
    requires e.Binary? && ReadsProduct(ts, i, e.left, at) && ReadsPower(ts, at + 1, e.right, j)
    requires (ts[at].kind == STAR || ts[at].kind == SLASH || ts[at].kind == PERCENT) && ts[at].lexeme == e.op
    ensures ReadsProduct(ts, i, e, j)
  {
    StrategyParser.MulDivModTailStep(ts, e.left, at);
  }

  /** A whole product is where a sum starts. */
  lemma SumStart(ts: seq<Token>, i: nat, e: Expr, j: nat)
    requires ReadsProduct(ts, i, e, j) && Grammar.AfterProduct(ts, j)
    ensures ReadsSum(ts, i, e, j)
  {
    StrategyParser.MulDivModTailStop(ts, e, j);
  }

  /** A sum read as far as its last operator, followed by a whole product. */
  lemma SumExtend(ts: seq<Token>, i: nat, e: Expr, at: nat, j: nat)
    requires e.Binary? && ReadsSum(ts, i, e.left, at) && ReadsProduct(ts, at + 1, e.right, j)
    requires (ts[at].kind == PLUS || ts[at].kind == MINUS) && ts[at].lexeme == e.op
    requires Grammar.AfterProduct(ts, j)
    ensures ReadsSum(ts, i, e, j)
  {
    StrategyParser.MulDivModTailStop(ts, e.right, j);
    StrategyParser.AddSubTailStep(ts, e.left, at);
  }

  /** A whole sum not followed by an operator is a whole expression. */
  lemma ExpressionStop(ts: seq<Token>, i: nat, e: Expr, j: nat)
    requires ReadsSum(ts, i, e, j) && !Grammar.IsOperator(ts[j].kind)
    ensures ReadsExpr(ts, i, e, j)
  {
    StrategyParser.AddSubTailStop(ts, e, j);
  }

  // ---------------------------------------------------------------------------------
  // Statements
  // ---------------------------------------------------------------------------------

  /** Every statement of the list is well shaped. */
  predicate AllShaped(ss: seq<Stmt>) {
    ss != [] ==> WellShaped(ss[0]) && AllShaped(ss[1..])
  }

  lemma {:induction false} AllShapedIn(ss: seq<Stmt>)
    requires forall s | s in ss :: WellShaped(s)
    ensures AllShaped(ss)
  {
    if ss != [] {
      assert ss[0] in ss;
      assert forall s | s in ss[1..] :: s in ss;
      AllShapedIn(ss[1..]);
    }
  }

  /** A spelled statement starts with a statement's first token. */
  lemma PartStart(ts: seq<Token>, i: nat, s: Stmt)
    requires SpellsPart(ts, i, s)
    ensures i < |ts| && Grammar.StartsStatement(ts[i].kind)
  {
    assert SpellsPartStep(ts, i, s);
    assert SpellsStmt(ts, i, s);
  }

  lemma PartIsStmt(ts: seq<Token>, i: nat, s: Stmt)
    requires SpellsPart(ts, i, s)
    ensures SpellsStmt(ts, i, s)
  {
    assert SpellsPartStep(ts, i, s);
  }

  /** A spelled statement is read back by `Statement` when no operator follows it. */
  lemma {:induction false} StatementRoundTrip(ts: seq<Token>, i: nat, s: Stmt, j: nat)
    requires EndsWithEof(ts) && WellShaped(s)
    requires SpellsPart(ts, i, s) && j == i + StmtLen(s) && j < |ts|
    requires !Grammar.IsOperator(ts[j].kind)
    ensures ReadsStmt(ts, i, s, j)
    decreases s, 2
  {
    PartIsStmt(ts, i, s);
    match s
    case Assign(_, _) => AssignRoundTrip(ts, i, s, j);
    case Done => DoneRoundTrip(ts, i, s, j);
    case Move(_) => MoveRoundTrip(ts, i, s, j);
    case Shoot(_, _) => ShootRoundTrip(ts, i, s, j);
    case Block(_) => BlockRoundTrip(ts, i, s, j);
    case If(_, _, _) => IfRoundTrip(ts, i, s, j);
    case While(_, _) => WhileRoundTrip(ts, i, s, j);
  }

  lemma DoneRoundTrip(ts: seq<Token>, i: nat, s: Stmt, j: nat)
    requires s.Done? && EndsWithEof(ts) && SpellsStmt(ts, i, s) && j == i + StmtLen(s) && j < |ts|
    ensures ReadsStmt(ts, i, s, j)
  {
  }

  lemma MoveRoundTrip(ts: seq<Token>, i: nat, s: Stmt, j: nat)
    requires s.Move? && EndsWithEof(ts) && SpellsStmt(ts, i, s) && j == i + StmtLen(s) && j < |ts|
    ensures ReadsStmt(ts, i, s, j)
  {
    DirectionTokenRead(s.dir);
  }

  lemma AssignRoundTrip(ts: seq<Token>, i: nat, s: Stmt, j: nat)
    requires s.Assign? && EndsWithEof(ts) && IsSum(s.value)
    requires SpellsStmt(ts, i, s) && j == i + StmtLen(s) && j < |ts|
    requires !Grammar.IsOperator(ts[j].kind)
    ensures ReadsStmt(ts, i, s, j)
  {
    ExpressionRoundTrip(ts, i + 2, s.value, j);
    AssignParsed(ts, i, s, j);
  }

  lemma AssignParsed(ts: seq<Token>, i: nat, s: Stmt, j: nat)
    requires s.Assign? && ReadsExpr(ts, i + 2, s.value, j)
    requires ts[i].kind == IDENT && ts[i].lexeme == s.name && ts[i + 1].kind == EQUAL
    ensures ReadsAssign(ts, i, s, j) && ReadsStmt(ts, i, s, j)
  {
  }

  lemma ShootRoundTrip(ts: seq<Token>, i: nat, s: Stmt, j: nat)
    requires s.Shoot? && EndsWithEof(ts) && IsSum(s.expenditure)
    requires SpellsStmt(ts, i, s) && j == i + StmtLen(s) && j < |ts|
    requires !Grammar.IsOperator(ts[j].kind)
    ensures ReadsStmt(ts, i, s, j)
  {
    DirectionTokenRead(s.dir);
    ExpressionRoundTrip(ts, i + 2, s.expenditure, j);
    ShootParsed(ts, i, s, j);
  }

  lemma ShootParsed(ts: seq<Token>, i: nat, s: Stmt, j: nat)
    requires s.Shoot? && ReadsExpr(ts, i + 2, s.expenditure, j)
    requires ts[i].kind == SHOOT && Grammar.DirectionOf(ts[i + 1].kind) == Some(s.dir)
    ensures ReadsShoot(ts, i, s, j) && ReadsStmt(ts, i, s, j)
  {
  }

  lemma {:induction false} BlockRoundTrip(ts: seq<Token>, i: nat, s: Stmt, j: nat)
    requires s.Block? && EndsWithEof(ts) && WellShaped(s)
    requires SpellsStmt(ts, i, s) && j == i + StmtLen(s) && j < |ts|
    ensures ReadsStmt(ts, i, s, j)
    decreases s, 1
  {
    AllShapedIn(s.statements);
    BlockItemsRoundTrip(ts, i + 1, s.statements, [], j - 1);
    assert [] + s.statements == s.statements;
    BlockParsed(ts, i, s, j - 1);
  }

  lemma BlockParsed(ts: seq<Token>, i: nat, s: Stmt, k: nat)
    requires s.Block? && ReadsItems(ts, i + 1, [], s.statements, k) && k + 1 < |ts|
    requires ts[i].kind == LBRACE && ts[k].kind == RBRACE
    ensures ReadsBlock(ts, i, s, k + 1) && ReadsStmt(ts, i, s, k + 1)
  {
  }

  lemma {:induction false} IfRoundTrip(ts: seq<Token>, i: nat, s: Stmt, j: nat)
    requires s.If? && EndsWithEof(ts) && WellShaped(s)
    requires SpellsStmt(ts, i, s) && j == i + StmtLen(s) && j < |ts|
    requires !Grammar.IsOperator(ts[j].kind)
    ensures ReadsStmt(ts, i, s, j)
    decreases s, 1
  {
    var p1 := i + 2 + ExprLen(s.cond);
    var p2 := p1 + 2 + StmtLen(s.thenBranch);
    IfLayout(ts, i, s, p1, p2, j);
    IfParts(ts, i, s, p1, p2, j);
    IfParsed(ts, i, s, p1, p2, j);
  }

  /** Where the pieces of a spelled `if` lie. */
  lemma IfLayout(ts: seq<Token>, i: nat, s: Stmt, p1: nat, p2: nat, j: nat)
    requires s.If? && WellShaped(s) && SpellsStmt(ts, i, s) && j == i + StmtLen(s)
    requires p1 == i + 2 + ExprLen(s.cond) && p2 == p1 + 2 + StmtLen(s.thenBranch)
    ensures IsSum(s.cond) && WellShaped(s.thenBranch) && WellShaped(s.elseBranch)
    ensures j == p2 + 1 + StmtLen(s.elseBranch)
    ensures i + 1 < |ts| && ts[i].kind == IF && ts[i + 1].kind == LPAREN
    ensures SpellsSub(ts, i + 2, s.cond)
    ensures p1 + 1 < |ts| && ts[p1].kind == RPAREN && ts[p1 + 1].kind == THEN
    ensures SpellsPart(ts, p1 + 2, s.thenBranch)
    ensures p2 < |ts| && ts[p2].kind == ELSE && SpellsPart(ts, p2 + 1, s.elseBranch)
  {
    IfSizes(s, i, p1, p2, j);
    IfSpelledAt(ts, i, s, p1, p2);
  }

  lemma IfSizes(s: Stmt, i: nat, p1: nat, p2: nat, j: nat)
    requires s.If? && WellShaped(s) && j == i + StmtLen(s)
    requires p1 == i + 2 + ExprLen(s.cond) && p2 == p1 + 2 + StmtLen(s.thenBranch)
    ensures IsSum(s.cond) && WellShaped(s.thenBranch) && WellShaped(s.elseBranch)
    ensures j == p2 + 1 + StmtLen(s.elseBranch)
  {
  }

  lemma IfSpelledAt(ts: seq<Token>, i: nat, s: Stmt, p1: nat, p2: nat)
    requires s.If? && SpellsStmt(ts, i, s)
    requires p1 == i + 2 + ExprLen(s.cond) && p2 == p1 + 2 + StmtLen(s.thenBranch)
    ensures i + 1 < |ts| && ts[i].kind == IF && ts[i + 1].kind == LPAREN
    ensures SpellsSub(ts, i + 2, s.cond)
    ensures p1 + 1 < |ts| && ts[p1].kind == RPAREN && ts[p1 + 1].kind == THEN
    ensures SpellsPart(ts, p1 + 2, s.thenBranch)
    ensures p2 < |ts| && ts[p2].kind == ELSE && SpellsPart(ts, p2 + 1, s.elseBranch)
  {
  }

  /** The condition and both branches of a spelled `if` are read back one by one. */
  lemma {:induction false} IfParts(ts: seq<Token>, i: nat, s: Stmt, p1: nat, p2: nat, j: nat)
    requires s.If? && EndsWithEof(ts)
    requires IsSum(s.cond) && WellShaped(s.thenBranch) && WellShaped(s.elseBranch)
    requires p1 == i + 2 + ExprLen(s.cond) && p2 == p1 + 2 + StmtLen(s.thenBranch)
    requires j == p2 + 1 + StmtLen(s.elseBranch) && j < |ts| && !Grammar.IsOperator(ts[j].kind)
    requires SpellsSub(ts, i + 2, s.cond) && ts[p1].kind == RPAREN
    requires SpellsPart(ts, p1 + 2, s.thenBranch) && ts[p2].kind == ELSE
    requires SpellsPart(ts, p2 + 1, s.elseBranch)
    ensures ReadsExpr(ts, i + 2, s.cond, p1)
    ensures ReadsStmt(ts, p1 + 2, s.thenBranch, p2)
    ensures ReadsStmt(ts, p2 + 1, s.elseBranch, j)
    decreases s, 0
  {
    ExpressionRoundTrip(ts, i + 2, s.cond, p1);
    StatementRoundTrip(ts, p1 + 2, s.thenBranch, p2);
    StatementRoundTrip(ts, p2 + 1, s.elseBranch, j);
  }

  /** What `IfStatement` still reads once the condition `cond` has ended at `p`: the rest
      of its rule, written out so that a proof can take the rule in two halves. */
  ghost function IfAfterCondition(ts: seq<Token>, cond: Expr, p: nat): Result<Parsed<Stmt>>
    requires Grammar.At(ts, p)
  {
    var rp :- Grammar.Consume(ts, p, RPAREN, ExpectedRParenAfterCondition);
    var th :- Grammar.Consume(ts, rp.next, THEN, ExpectedThenAfterCondition);
    var thenBranch :- Grammar.Statement(ts, th.next);
    var el :- Grammar.Consume(ts, thenBranch.next, ELSE, ExpectedElseAfterThenBranch);
    var elseBranch :- Grammar.Statement(ts, el.next);
    Ok(Parsed(If(cond, thenBranch.value, elseBranch.value), elseBranch.next))
  }

  lemma IfHead(ts: seq<Token>, i: nat, cond: Expr, p: nat)
    requires i + 2 < p && ReadsExpr(ts, i + 2, cond, p)
    requires ts[i].kind == IF && ts[i + 1].kind == LPAREN
    ensures Grammar.At(ts, i) && Grammar.At(ts, p)
    ensures Grammar.IfStatement(ts, i) == IfAfterCondition(ts, cond, p)
  {
    assert Grammar.Consume(ts, i, IF, ExpectedIf) == Ok(Parsed(ts[i], i + 1));
    assert Grammar.Consume(ts, i + 1, LPAREN, ExpectedLParenAfterIf) == Ok(Parsed(ts[i + 1], i + 2));
  }

  lemma IfTail(ts: seq<Token>, s: Stmt, p1: nat, p2: nat, j: nat)
    requires s.If? && p1 + 2 < p2 + 1
    requires Grammar.At(ts, p1)
    requires ReadsStmt(ts, p1 + 2, s.thenBranch, p2)
    requires ReadsStmt(ts, p2 + 1, s.elseBranch, j)
    requires ts[p1].kind == RPAREN && ts[p1 + 1].kind == THEN && ts[p2].kind == ELSE
    ensures IfAfterCondition(ts, s.cond, p1) == Ok(Parsed(s, j))
  {
  }

  lemma IfParsed(ts: seq<Token>, i: nat, s: Stmt, p1: nat, p2: nat, j: nat)
    requires s.If? && i + 2 < p1 + 2 < p2 + 1
    requires ReadsExpr(ts, i + 2, s.cond, p1)
    requires ReadsStmt(ts, p1 + 2, s.thenBranch, p2)
    requires ReadsStmt(ts, p2 + 1, s.elseBranch, j)
    requires ts[i].kind == IF && ts[i + 1].kind == LPAREN && ts[p1].kind == RPAREN
    requires ts[p1 + 1].kind == THEN && ts[p2].kind == ELSE
    ensures ReadsIf(ts, i, s, j) && ReadsStmt(ts, i, s, j)
  {
    IfHead(ts, i, s.cond, p1);
    IfTail(ts, s, p1, p2, j);
  }

  lemma {:induction false} WhileRoundTrip(ts: seq<Token>, i: nat, s: Stmt, j: nat)
    requires s.While? && EndsWithEof(ts) && WellShaped(s)
    requires SpellsStmt(ts, i, s) && j == i + StmtLen(s) && j < |ts|
    requires !Grammar.IsOperator(ts[j].kind)
    ensures ReadsStmt(ts, i, s, j)
    decreases s, 1
  {
    var p := i + 2 + ExprLen(s.cond);
    WhileLayout(ts, i, s, p, j);
    WhileParts(ts, i, s, p, j);
    WhileParsed(ts, i, s, p, j);
  }

  /** Where the pieces of a spelled `while` lie. */
  lemma WhileLayout(ts: seq<Token>, i: nat, s: Stmt, p: nat, j: nat)
    requires s.While? && WellShaped(s) && SpellsStmt(ts, i, s) && j == i + StmtLen(s)
    requires p == i + 2 + ExprLen(s.cond)
    ensures IsSum(s.cond) && WellShaped(s.body) && j == p + 1 + StmtLen(s.body)
    ensures i + 1 < |ts| && ts[i].kind == WHILE && ts[i + 1].kind == LPAREN
    ensures SpellsSub(ts, i + 2, s.cond)
    ensures p < |ts| && ts[p].kind == RPAREN && SpellsPart(ts, p + 1, s.body)
  {
  }

  /** The condition and the body of a spelled `while` are read back one by one. */
  lemma {:induction false} WhileParts(ts: seq<Token>, i: nat, s: Stmt, p: nat, j: nat)
    requires s.While? && EndsWithEof(ts) && IsSum(s.cond) && WellShaped(s.body)
    requires p == i + 2 + ExprLen(s.cond) && j == p + 1 + StmtLen(s.body)
    requires j < |ts| && !Grammar.IsOperator(ts[j].kind)
    requires SpellsSub(ts, i + 2, s.cond) && ts[p].kind == RPAREN && SpellsPart(ts, p + 1, s.body)
    ensures ReadsExpr(ts, i + 2, s.cond, p) && ReadsStmt(ts, p + 1, s.body, j)
    decreases s, 0
  {
    ExpressionRoundTrip(ts, i + 2, s.cond, p);
    StatementRoundTrip(ts, p + 1, s.body, j);
  }

  lemma WhileParsed(ts: seq<Token>, i: nat, s: Stmt, p: nat, j: nat)
    requires s.While? && i + 2 < p + 1
    requires ReadsExpr(ts, i + 2, s.cond, p) && ReadsStmt(ts, p + 1, s.body, j)
    requires ts[i].kind == WHILE && ts[i + 1].kind == LPAREN && ts[p].kind == RPAREN
    ensures ReadsWhile(ts, i, s, j) && ReadsStmt(ts, i, s, j)
  {
    assert Grammar.Consume(ts, i, WHILE, ExpectedWhile) == Ok(Parsed(ts[i], i + 1));
    assert Grammar.Consume(ts, i + 1, LPAREN, ExpectedLParenAfterWhile) == Ok(Parsed(ts[i + 1], i + 2));
    assert Grammar.Consume(ts, p, RPAREN, ExpectedRParenAfterCondition) == Ok(Parsed(ts[p], p + 1));
  }

  /** One step into a spelled statement list: its first statement, then the rest. */
  lemma StmtsFirst(ts: seq<Token>, i: nat, ss: seq<Stmt>, j: nat)
    requires ss != [] && SpellsStmts(ts, i, ss) && j == i + StmtsLen(ss)
    ensures SpellsPart(ts, i, ss[0]) && i < |ts| && Grammar.StartsStatement(ts[i].kind)
    ensures SpellsStmts(ts, i + StmtLen(ss[0]), ss[1..]) && j == i + StmtLen(ss[0]) + StmtsLen(ss[1..])
  {
    PartStart(ts, i, ss[0]);
  }

  /** One turn of the block loop: a statement read at `i` is followed by the rest. */
  lemma BlockItemsCons(ts: seq<Token>, i: nat, acc: seq<Stmt>, ss: seq<Stmt>, k: nat, j: nat)
    requires ss != [] && ReadsStmt(ts, i, ss[0], k) && ts[i].kind != RBRACE && ts[i].kind != EOF
    requires ReadsItems(ts, k, acc + [ss[0]], acc + [ss[0]] + ss[1..], j)
    ensures ReadsItems(ts, i, acc, acc + ss, j)
  {
    AppendFirst(acc, ss);
  }

  /** One turn of the strategy loop: a statement read at `i` is followed by the rest. */
  lemma StatementsCons(ts: seq<Token>, i: nat, acc: seq<Stmt>, ss: seq<Stmt>, k: nat, j: nat)
    requires ss != [] && ReadsStmt(ts, i, ss[0], k) && ts[i].kind != EOF
    requires ReadsUntilEnd(ts, k, acc + [ss[0]], acc + [ss[0]] + ss[1..], j)
    ensures ReadsUntilEnd(ts, i, acc, acc + ss, j)
  {
    AppendFirst(acc, ss);
  }

  lemma AppendFirst(acc: seq<Stmt>, ss: seq<Stmt>)
    requires ss != []
    ensures acc + [ss[0]] + ss[1..] == acc + ss
  {
    assert [ss[0]] + ss[1..] == ss;
  }

  /** The statements of a spelled block are read back by the block loop, which stops at
      the `}` or end marker after them. */
  lemma {:induction false} BlockItemsRoundTrip(ts: seq<Token>, i: nat, ss: seq<Stmt>, acc: seq<Stmt>, j: nat)
    requires EndsWithEof(ts) && AllShaped(ss)
    requires SpellsStmts(ts, i, ss) && j == i + StmtsLen(ss) && j < |ts|
    requires ts[j].kind == RBRACE || ts[j].kind == EOF
    ensures ReadsItems(ts, i, acc, acc + ss, j)
    decreases ss
  {
    if ss == [] {
      assert acc + ss == acc;
    } else {
      var k := i + StmtLen(ss[0]);
      StmtsFirst(ts, i, ss, j);
      if ss[1..] != [] {
        StmtsFirst(ts, k, ss[1..], j);
      }
      StatementRoundTrip(ts, i, ss[0], k);
      BlockItemsRoundTrip(ts, k, ss[1..], acc + [ss[0]], j);
      BlockItemsCons(ts, i, acc, ss, k, j);
    }
  }

  /** The statements of a spelled strategy are read back by the strategy loop, which
      stops at the end marker after them. */
  lemma {:induction false} StatementsRoundTrip(ts: seq<Token>, i: nat, ss: seq<Stmt>, acc: seq<Stmt>, j: nat)
    requires EndsWithEof(ts) && AllShaped(ss)
    requires SpellsStmts(ts, i, ss) && j == i + StmtsLen(ss) && j < |ts| && ts[j].kind == EOF
    ensures ReadsUntilEnd(ts, i, acc, acc + ss, j)
    decreases ss
  {
    if ss == [] {
      assert acc + ss == acc;
    } else {
      var k := i + StmtLen(ss[0]);
      StmtsFirst(ts, i, ss, j);
      if ss[1..] != [] {
        StmtsFirst(ts, k, ss[1..], j);
      }
      StatementRoundTrip(ts, i, ss[0], k);
      StatementsRoundTrip(ts, k, ss[1..], acc + [ss[0]], j);
      StatementsCons(ts, i, acc, ss, k, j);
    }
  }

  /** A token list that spells a strategy of well-shaped statements, followed by the end
      marker, parses to that strategy. */
  lemma SpelledRoundTrip(ts: seq<Token>, prog: seq<Stmt>)
    requires prog != [] && forall s | s in prog :: WellShaped(s)
    requires SpellsStmts(ts, 0, prog) && |ts| == StmtsLen(prog) + 1 && ts[|ts| - 1].kind == EOF
    ensures Grammar.Strategy(ts, 0) == Ok(prog)
  {
    AllShapedIn(prog);
    StatementsRoundTrip(ts, 0, prog, [], |ts| - 1);
    assert [] + prog == prog;
  }

  /** The printer's tokens, with the end marker after them, parse back to the strategy. */
  lemma PrintedRoundTrip(prog: seq<Stmt>)
    requires prog != [] && forall s | s in prog :: WellShaped(s)
    ensures Grammar.Strategy(StmtsTokens(prog) + [EofToken(0)], 0) == Ok(prog)
  {
    var ts := StmtsTokens(prog) + [EofToken(0)];
    SpellsAppend(StmtsTokens(prog), [EofToken(0)]);
    StmtsSpelled(ts, 0, prog);
    SpelledRoundTrip(ts, prog);
  }
}
