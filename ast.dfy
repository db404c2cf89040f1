/** The abstract syntax of strategies, and the shapes the parser gives expressions. */
module Ast {
  import opened Tokens

  datatype Direction = Up | Down | UpLeft | UpRight | DownLeft | DownRight

  datatype InfoKind = Ally | Opponent | Nearby

  datatype Expr =
    | Num(value: Long)
    | Var(name: string)
    | Binary(op: string, left: Expr, right: Expr)   // `op` is the operator's lexeme
    | Paren(inner: Expr)
    | Info(kind: InfoKind, dir: Option<Direction>)  // `dir` is Java's `dirOrNull`

  datatype Stmt =
    | Assign(name: string, value: Expr)
    | Done
    | Move(dir: Direction)
    | Shoot(dir: Direction, expenditure: Expr)
    | Block(statements: seq<Stmt>)
    | If(cond: Expr, thenBranch: Stmt, elseBranch: Stmt)
    | While(cond: Expr, body: Stmt)

  /** The lexemes of the operators at each precedence level. */
  const AddOps: set<string> := {"+", "-"}
  const MulOps: set<string> := {"*", "/", "%"}
  const PowOp: string := "^"

  // The four levels of the expression grammar, from loosest to tightest binding. An
  // expression has the shape of a level when every operator node in it sits where that
  // level's precedence and associativity put it: a chain of `+`/`-` nests to the left
  // with products as its right operands, a chain of `*`/`/`/`%` nests to the left with
  // powers as its right operands, a chain of `^` nests to the right with primaries as
  // its left operands, and only a Paren node brings a looser level back in.

  predicate IsSum(e: Expr)
    decreases e, 3
  {
    if e.Binary? && e.op in AddOps then IsSum(e.left) && IsProduct(e.right) else IsProduct(e)
  }

  predicate IsProduct(e: Expr)
    decreases e, 2
  {
    if e.Binary? && e.op in MulOps then IsProduct(e.left) && IsPower(e.right) else IsPower(e)
  }

  predicate IsPower(e: Expr)
    decreases e, 1
  {
    if e.Binary? && e.op == PowOp then IsPrimary(e.left) && IsPower(e.right) else IsPrimary(e)
  }

  predicate IsPrimary(e: Expr)
    decreases e, 0
  {
    match e
    case Num(_) => true
    case Var(_) => true
    case Binary(_, _, _) => false
    case Paren(inner) => IsSum(inner)
    case Info(kind, dir) => (kind == Nearby) == dir.Some?
  }

  /** Every expression in the statement has the shape of the loosest level. */
  predicate WellShaped(s: Stmt) {
    match s
    case Assign(_, value) => IsSum(value)
    case Done => true
    case Move(_) => true
    case Shoot(_, expenditure) => IsSum(expenditure)
    case Block(statements) => forall t | t in statements :: WellShaped(t)
    case If(cond, thenBranch, elseBranch) => IsSum(cond) && WellShaped(thenBranch) && WellShaped(elseBranch)
    case While(cond, body) => IsSum(cond) && WellShaped(body)
  }

  /** Each level contains the tighter ones. */
  lemma LevelsNest(e: Expr)
    ensures IsPrimary(e) ==> IsPower(e)
    ensures IsPower(e) ==> IsProduct(e)
    ensures IsProduct(e) ==> IsSum(e)
  {
    if e.Binary? {
      assert !IsPrimary(e);
      assert e.op in MulOps ==> e.op != PowOp;
      assert e.op in AddOps ==> e.op !in MulOps && e.op != PowOp;
    }
  }
}
