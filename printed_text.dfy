/** The printed source text parses back to the strategy: the lexer splits the printer's
    text into the printer's tokens (at the positions the text gives them), and those
    tokens parse back to the strategy (module RoundTrip). */
module PrintedText {
  import opened Tokens
  import opened Errors
  import opened Ast
  import opened Lexer
  import opened Printer
  import opened Spelling
  import LexerFacts
  import Grammar
  import RoundTrip
  import StrategyParser

  // ---------------------------------------------------------------------------------
  // The printer writes only tokens the lexer can read
  // ---------------------------------------------------------------------------------

  /** Every token of the list has one of the three shapes the lexer produces. */
  predicate AllWellFormed(us: seq<Token>) {
    forall k | 0 <= k < |us| :: LexerFacts.WellFormed(us[k])
  }

  lemma WellFormedConcat(a: seq<Token>, b: seq<Token>)
    requires AllWellFormed(a) && AllWellFormed(b)
    ensures AllWellFormed(a + b)
  {
    forall k | 0 <= k < |a + b|
      ensures LexerFacts.WellFormed((a + b)[k])
    {
      if k < |a| {
        assert (a + b)[k] == a[k];
      } else {
        assert (a + b)[k] == b[k - |a|];
      }
    }
  }

  lemma WellFormedConcat3(a: seq<Token>, b: seq<Token>, c: seq<Token>)
    requires AllWellFormed(a) && AllWellFormed(b) && AllWellFormed(c)
    ensures AllWellFormed(a + b + c)
  {
    WellFormedConcat(a, b);
    WellFormedConcat(a + b, c);
  }

  /** A keyword as the printer writes it is the word the keyword table maps to its type. */
  lemma KeywordWellFormed(kind: TokenType, w: string)
    requires LexerFacts.IsWord(w) && KeywordKind(w) == Some(kind)
    ensures AllWellFormed([Word(kind, w)])
  {
    assert LexerFacts.WellFormed(Word(kind, w));
  }

  /** A one-character symbol as the printer writes it is in the symbol table. */
  lemma SymbolWellFormed(kind: TokenType, w: string)
    requires |w| == 1 && SymbolKind(w[0]) == Some(kind)
    ensures AllWellFormed([Word(kind, w)])
  {
    assert LexerFacts.WellFormed(Word(kind, w));
  }

  /** A name as the printer writes it is an identifier the keyword table does not know. */
  lemma NameWellFormed(name: string)
    requires IsName(name)
    ensures AllWellFormed([Word(IDENT, name)])
  {
    assert LexerFacts.WellFormed(Word(IDENT, name));
  }

  lemma PairWellFormed(t: Token, u: Token)
    requires AllWellFormed([t]) && AllWellFormed([u])
    ensures AllWellFormed([t, u])
  {
    assert LexerFacts.WellFormed([t][0]) && LexerFacts.WellFormed([u][0]);
  }

  lemma DirectionWellFormed(d: Direction)
    ensures AllWellFormed([DirectionToken(d)])
  {
    if d.Up? || d.UpLeft? || d.UpRight? {
      UpwardWellFormed(d);
    } else {
      DownwardWellFormed(d);
    }
  }

  lemma UpwardWellFormed(d: Direction)
    requires d.Up? || d.UpLeft? || d.UpRight?
    ensures AllWellFormed([DirectionToken(d)])
  {
    if d.Up? {
      KeywordWellFormed(UP, "up");
    } else if d.UpLeft? {
      KeywordWellFormed(UPLEFT, "upleft");
    } else {
      KeywordWellFormed(UPRIGHT, "upright");
    }
  }

  lemma DownwardWellFormed(d: Direction)
    requires d.Down? || d.DownLeft? || d.DownRight?
    ensures AllWellFormed([DirectionToken(d)])
  {
    if d.Down? {
      KeywordWellFormed(DOWN, "down");
    } else if d.DownLeft? {
      KeywordWellFormed(DOWNLEFT, "downleft");
    } else {
      KeywordWellFormed(DOWNRIGHT, "downright");
    }
  }

  /** The words of an information query, as the printer writes them. */
  lemma InfoWellFormed(kind: InfoKind, dir: Option<Direction>)
    ensures AllWellFormed(InfoTokens(kind, dir))
  {
    match kind
    case Ally => KeywordWellFormed(ALLY, "ally");
    case Opponent => KeywordWellFormed(OPPONENT, "opponent");
    case Nearby =>
      KeywordWellFormed(NEARBY, "nearby");
      if dir.Some? {
        DirectionWellFormed(dir.value);
        WellFormedConcat([Word(NEARBY, "nearby")], [DirectionToken(dir.value)]);
      } else {
        assert InfoTokens(kind, dir) == [Word(NEARBY, "nearby")];
      }
  }

  lemma BinaryWellFormed(e: Expr)
    requires e.Binary? && IsOperatorLexeme(e.op)
    requires AllWellFormed(OperandTokens(e.left)) && AllWellFormed(OperandTokens(e.right))
    ensures AllWellFormed(ExprTokens(e))
  {
    SymbolWellFormed(OperatorKind(e.op), e.op);
    WellFormedConcat3(OperandTokens(e.left), [Word(OperatorKind(e.op), e.op)], OperandTokens(e.right));
  }

  lemma ParenWellFormed(e: Expr)
    requires e.Paren? && AllWellFormed(OperandTokens(e.inner))
    ensures AllWellFormed(ExprTokens(e))
  {
    SymbolWellFormed(LPAREN, "(");
    SymbolWellFormed(RPAREN, ")");
    WellFormedConcat3([Word(LPAREN, "(")], OperandTokens(e.inner), [Word(RPAREN, ")")]);
  }

  /** A printable expression prints as well-formed tokens. */
  lemma {:induction false} ExprWellFormed(e: Expr)
    requires PrintableExpr(e)
    ensures AllWellFormed(ExprTokens(e))
    decreases e, 0
  {
    match e
    case Num(v) =>
      NumeralValue(v as nat);
    case Var(name) =>
    case Binary(op, left, right) =>
      OperandWellFormed(left);
      OperandWellFormed(right);
      BinaryWellFormed(e);
    case Paren(inner) =>
      OperandWellFormed(inner);
      ParenWellFormed(e);
    case Info(kind, dir) =>
      InfoWellFormed(kind, dir);
  }

  lemma {:induction false} OperandWellFormed(e: Expr)
    requires PrintableExpr(e)
    ensures AllWellFormed(OperandTokens(e))
    decreases e, 1
  {
    assert OperandTokens(e) == OperandTokensStep(e) == ExprTokens(e);
    ExprWellFormed(e);
  }

  /** The keywords and symbols of an `if`, as the printer writes them. */
  lemma IfWordsWellFormed()
    ensures AllWellFormed([Word(IF, "if"), Word(LPAREN, "(")])
    ensures AllWellFormed([Word(RPAREN, ")"), Word(THEN, "then")])
    ensures AllWellFormed([Word(ELSE, "else")])
  {
    KeywordWellFormed(IF, "if");
    SymbolWellFormed(LPAREN, "(");
    PairWellFormed(Word(IF, "if"), Word(LPAREN, "("));
    SymbolWellFormed(RPAREN, ")");
    KeywordWellFormed(THEN, "then");
    PairWellFormed(Word(RPAREN, ")"), Word(THEN, "then"));
    KeywordWellFormed(ELSE, "else");
  }

  /** The keywords and symbols of a `while`, as the printer writes them. */
  lemma WhileWordsWellFormed()
    ensures AllWellFormed([Word(WHILE, "while"), Word(LPAREN, "(")])
    ensures AllWellFormed([Word(RPAREN, ")")])
  {
    KeywordWellFormed(WHILE, "while");
    SymbolWellFormed(LPAREN, "(");
    PairWellFormed(Word(WHILE, "while"), Word(LPAREN, "("));
    SymbolWellFormed(RPAREN, ")");
  }

  /** An `if` statement prints as well-formed tokens when its parts do. */
  lemma IfWellFormed(s: Stmt)
    requires s.If? && AllWellFormed(OperandTokens(s.cond))
    requires AllWellFormed(PartTokens(s.thenBranch)) && AllWellFormed(PartTokens(s.elseBranch))
    ensures AllWellFormed(StmtTokens(s))
  {
    var head := [Word(IF, "if"), Word(LPAREN, "(")];
    var close := [Word(RPAREN, ")"), Word(THEN, "then")];
    var otherwise := [Word(ELSE, "else")];
    IfWordsWellFormed();
    WellFormedConcat3(head, OperandTokens(s.cond), close);
    WellFormedConcat3(head + OperandTokens(s.cond) + close, PartTokens(s.thenBranch), otherwise);
    WellFormedConcat(head + OperandTokens(s.cond) + close + PartTokens(s.thenBranch) + otherwise,
                     PartTokens(s.elseBranch));
  }

  lemma WhileWellFormed(s: Stmt)
    requires s.While? && AllWellFormed(OperandTokens(s.cond)) && AllWellFormed(PartTokens(s.body))
    ensures AllWellFormed(StmtTokens(s))
  {
    var head := [Word(WHILE, "while"), Word(LPAREN, "(")];
    WhileWordsWellFormed();
    WellFormedConcat3(head, OperandTokens(s.cond), [Word(RPAREN, ")")]);
    WellFormedConcat(head + OperandTokens(s.cond) + [Word(RPAREN, ")")], PartTokens(s.body));
  }

  lemma BlockWellFormed(s: Stmt)
    requires s.Block? && AllWellFormed(StmtsTokens(s.statements))
    ensures AllWellFormed(StmtTokens(s))
  {
    SymbolWellFormed(LBRACE, "{");
    SymbolWellFormed(RBRACE, "}");
    WellFormedConcat3([Word(LBRACE, "{")], StmtsTokens(s.statements), [Word(RBRACE, "}")]);
  }

  lemma AssignWellFormed(s: Stmt)
    requires s.Assign? && IsName(s.name) && AllWellFormed(OperandTokens(s.value))
    ensures AllWellFormed(StmtTokens(s))
  {
    NameWellFormed(s.name);
    SymbolWellFormed(EQUAL, "=");
    PairWellFormed(Word(IDENT, s.name), Word(EQUAL, "="));
    WellFormedConcat([Word(IDENT, s.name), Word(EQUAL, "=")], OperandTokens(s.value));
  }

  lemma MoveWellFormed(s: Stmt)
    requires s.Move?
    ensures AllWellFormed(StmtTokens(s))
  {
    KeywordWellFormed(MOVE, "move");
    DirectionWellFormed(s.dir);
    PairWellFormed(Word(MOVE, "move"), DirectionToken(s.dir));
  }

  lemma ShootWellFormed(s: Stmt)
    requires s.Shoot? && AllWellFormed(OperandTokens(s.expenditure))
    ensures AllWellFormed(StmtTokens(s))
  {
    KeywordWellFormed(SHOOT, "shoot");
    DirectionWellFormed(s.dir);
    PairWellFormed(Word(SHOOT, "shoot"), DirectionToken(s.dir));
    WellFormedConcat([Word(SHOOT, "shoot"), DirectionToken(s.dir)], OperandTokens(s.expenditure));
  }

  /** A printable statement prints as well-formed tokens. */
  lemma {:induction false} StmtWellFormed(s: Stmt)
    requires PrintableStmt(s)
    ensures AllWellFormed(StmtTokens(s))
    decreases s, 0
  {
    match s
    case Assign(name, value) =>
      OperandWellFormed(value);
      AssignWellFormed(s);
    case Done =>
      KeywordWellFormed(DONE, "done");
    case Move(dir) =>
      MoveWellFormed(s);
    case Shoot(dir, expenditure) =>
      OperandWellFormed(expenditure);
      ShootWellFormed(s);
    case Block(statements) =>
      StmtsWellFormed(statements);
      BlockWellFormed(s);
    case If(cond, thenBranch, elseBranch) =>
      OperandWellFormed(cond);
      PartWellFormed(thenBranch);
      PartWellFormed(elseBranch);
      IfWellFormed(s);
    case While(cond, body) =>
      OperandWellFormed(cond);
      PartWellFormed(body);
      WhileWellFormed(s);
  }

  lemma {:induction false} PartWellFormed(s: Stmt)
    requires PrintableStmt(s)
    ensures AllWellFormed(PartTokens(s))
    decreases s, 1
  {
    assert PartTokens(s) == PartTokensStep(s) == StmtTokens(s);
    StmtWellFormed(s);
  }

  lemma {:induction false} StmtsWellFormed(ss: seq<Stmt>)
    requires forall s | s in ss :: PrintableStmt(s)
    ensures AllWellFormed(StmtsTokens(ss))
    decreases ss
  {
    if ss != [] {
      assert ss[0] in ss;
      assert forall s | s in ss[1..] :: s in ss;
      PartWellFormed(ss[0]);
      StmtsWellFormed(ss[1..]);
      WellFormedConcat(PartTokens(ss[0]), StmtsTokens(ss[1..]));
    }
  }

  // ---------------------------------------------------------------------------------
  // The lexer reads the text back into the tokens
  // ---------------------------------------------------------------------------------

  /** The tokens of `us` at the positions the text gives them when it starts at `base`:
      each lexeme stands one space after the end of the previous one. */
  function Place(us: seq<Token>, base: nat): (r: seq<Token>)
    ensures |r| == |us|
  {
    if us == [] then []
    else [Token(us[0].kind, us[0].lexeme, us[0].value, base + 1)] + Place(us[1..], base + 1 + |us[0].lexeme|)
  }

  /** A placed token is the token it places, up to its position. */
  lemma {:induction false} PlaceSame(us: seq<Token>, base: nat)
    ensures forall k | 0 <= k < |us| :: Same(Place(us, base)[k], TokenAt(us, k))
    decreases us
  {
    if us != [] {
      PlaceSame(us[1..], base + 1 + |us[0].lexeme|);
      forall k | 0 <= k < |us|
        ensures Same(Place(us, base)[k], TokenAt(us, k))
      {
        if k > 0 {
          assert Same(Place(us[1..], base + 1 + |us[0].lexeme|)[k - 1], TokenAt(us[1..], k - 1));
        }
      }
    }
  }

  /** The text of a non-empty token list is a space, the first lexeme and the text of
      the rest. */
  lemma TextHead(src: string, base: nat, us: seq<Token>, t: Token)
    requires us != [] && base <= |src| && src[base..] == Text(us)
    requires t == Token(us[0].kind, us[0].lexeme, us[0].value, base + 1)
    ensures t.pos == base + 1 && LexerFacts.End(t) <= |src| && src[base] == ' '
    ensures src[t.pos..LexerFacts.End(t)] == t.lexeme
    ensures src[LexerFacts.End(t)..] == Text(us[1..])
  {
    var e := LexerFacts.End(t);
    var rest := src[base..];
    assert rest == [' '] + us[0].lexeme + Text(us[1..]);
    assert e - base == 1 + |t.lexeme| <= |rest|;
    SuffixSlices(src, base, 1, e - base);
    assert rest[1..e - base] == t.lexeme;
    assert rest[e - base..] == Text(us[1..]);
  }

  lemma SuffixSlices(s: string, base: nat, a: nat, b: nat)
    requires base + b <= |s| && a <= b
    ensures s[base + a..base + b] == s[base..][a..b] && s[base + b..] == s[base..][b..]
  {
  }

  /** The text of tokens starts with a space, unless there are none. */
  lemma SpaceNext(src: string, k: nat, rest: seq<Token>)
    requires k <= |src| && src[k..] == Text(rest)
    ensures k < |src| ==> src[k] == ' '
  {
    if k < |src| {
      assert src[k] == src[k..][0];
    }
  }

  /** A well-formed token followed by a space or the end of the text occurs there, after
      a one-space gap. */
  lemma PlacedOccurs(src: string, base: nat, t: Token)
    requires LexerFacts.WellFormed(t) && t.pos == base + 1 && LexerFacts.End(t) <= |src|
    requires src[base] == ' ' && src[base + 1..LexerFacts.End(t)] == t.lexeme
    requires LexerFacts.End(t) < |src| ==> src[LexerFacts.End(t)] == ' '
    ensures LexerFacts.Occurs(src, t) && LexerFacts.Gap(src, base, base + 1)
  {
    assert LexerFacts.Gap(src, base + 1, base + 1);
  }

  /** The first of well-formed tokens is well-formed wherever it is placed (as `t`), and
      so are the rest. */
  lemma WellFormedRest(us: seq<Token>, t: Token)
    requires us != [] && AllWellFormed(us) && t.kind == us[0].kind
    requires t.lexeme == us[0].lexeme && t.value == us[0].value
    ensures LexerFacts.WellFormed(t) && AllWellFormed(us[1..])
  {
    assert LexerFacts.WellFormed(us[0]);
    forall k | 0 <= k < |us[1..]|
      ensures LexerFacts.WellFormed(us[1..][k])
    {
      assert us[1..][k] == us[k + 1];
    }
  }

  /** The placed tokens of `us` split `src` from `base` up to its end. */
  predicate SplitsAt(src: string, base: nat, us: seq<Token>) {
    LexerFacts.TokensUpTo(src, base, Place(us, base), |src|)
  }

  lemma PlaceCons(us: seq<Token>, base: nat, t: Token)
    requires us != [] && t == Token(us[0].kind, us[0].lexeme, us[0].value, base + 1)
    ensures Place(us, base) != [] && Place(us, base)[0] == t
    ensures Place(us, base)[1..] == Place(us[1..], LexerFacts.End(t))
  {
    assert Place(us, base) == [t] + Place(us[1..], base + 1 + |us[0].lexeme|);
  }

  /** One well-formed token that occurs after a gap, then a split of the rest. */
  lemma SplitsCons(src: string, from: nat, ts: seq<Token>, t: Token, rest: seq<Token>)
    requires ts != [] && ts[0] == t && ts[1..] == rest
    requires LexerFacts.WellFormed(t) && LexerFacts.Occurs(src, t) && LexerFacts.Gap(src, from, t.pos)
    requires LexerFacts.TokensUpTo(src, LexerFacts.End(t), rest, |src|)
    ensures LexerFacts.TokensUpTo(src, from, ts, |src|)
  {
  }

  /** The first of well-formed tokens, written after one space at `base`, occurs there
      (as `t`), and the text of the rest follows it. */
  lemma HeadOccurs(src: string, base: nat, us: seq<Token>, t: Token)
    requires us != [] && AllWellFormed(us) && base <= |src| && src[base..] == Text(us)
    requires t == Token(us[0].kind, us[0].lexeme, us[0].value, base + 1)
    ensures LexerFacts.WellFormed(t) && LexerFacts.Occurs(src, t) && LexerFacts.Gap(src, base, t.pos)
    ensures LexerFacts.End(t) <= |src| && src[LexerFacts.End(t)..] == Text(us[1..])
    ensures AllWellFormed(us[1..])
  {
    TextHead(src, base, us, t);
    WellFormedRest(us, t);
    SpaceNext(src, LexerFacts.End(t), us[1..]);
    PlacedOccurs(src, base, t);
  }

  /** A split of the tokens after the first extends to the first, placed one space after
      `base` (as `t`), when that first token occurs there. */
  lemma SplitsStep(src: string, base: nat, us: seq<Token>, t: Token)
    requires us != [] && t == Token(us[0].kind, us[0].lexeme, us[0].value, base + 1)
    requires LexerFacts.WellFormed(t) && LexerFacts.Occurs(src, t) && LexerFacts.Gap(src, base, t.pos)
    requires SplitsAt(src, LexerFacts.End(t), us[1..])
    ensures SplitsAt(src, base, us)
  {
    PlaceCons(us, base, t);
    SplitsCons(src, base, Place(us, base), t, Place(us[1..], LexerFacts.End(t)));
  }

  /** The text of well-formed tokens, standing at `base` in `src` up to its end, splits into
      one-space gaps and exactly those tokens. */
  lemma {:induction false} PlaceSplits(src: string, base: nat, us: seq<Token>)
    requires AllWellFormed(us) && base <= |src| && src[base..] == Text(us)
    ensures SplitsAt(src, base, us)
    decreases us
  {
    if us == [] {
      assert |src[base..]| == 0;
      assert LexerFacts.Gap(src, base, |src|);
    } else {
      var t := Token(us[0].kind, us[0].lexeme, us[0].value, base + 1);
      HeadOccurs(src, base, us, t);
      PlaceSplits(src, LexerFacts.End(t), us[1..]);
      SplitsStep(src, base, us, t);
    }
  }

  /** The lexer reads the text of well-formed tokens back into those tokens, placed, and
      the end marker. */
  lemma TextScan(us: seq<Token>)
    requires AllWellFormed(us)
    ensures Scan(Text(us), 0) == Ok(Place(us, 0) + [EofToken(|Text(us)|)])
  {
    var src := Text(us);
    var ts := Place(us, 0) + [EofToken(|src|)];
    PlaceSplits(src, 0, us);
    assert ts[..|ts| - 1] == Place(us, 0);
    LexerFacts.ScanIff(src, 0, ts);
  }

  /** The placed tokens and the end marker spell the token list they place. */
  lemma PlaceSpells(us: seq<Token>, n: nat)
    ensures Spells(Place(us, 0) + [EofToken(n)], 0, us)
  {
    var ts := Place(us, 0) + [EofToken(n)];
    PlaceSame(us, 0);
    forall k | 0 <= k < |us|
      ensures Same(ts[0 + k], TokenAt(us, k))
    {
      assert ts[k] == Place(us, 0)[k];
    }
  }

  // ---------------------------------------------------------------------------------
  // The round trip through the text
  // ---------------------------------------------------------------------------------

  /** A printable strategy of well-shaped statements is what parsing its printed text
      gives back. */
  lemma TextRoundTrip(prog: seq<Stmt>)
    requires prog != [] && forall s | s in prog :: WellShaped(s) && PrintableStmt(s)
    ensures StrategyParser.ParseText(Print(prog)) == Ok(prog)
  {
    var us := StmtsTokens(prog);
    var src := Print(prog);
    var ts := Place(us, 0) + [EofToken(|src|)];
    StmtsWellFormed(prog);
    TextScan(us);
    PlaceSpells(us, |src|);
    StmtsSpelled(ts, 0, prog);
    RoundTrip.SpelledRoundTrip(ts, prog);
  }
}
