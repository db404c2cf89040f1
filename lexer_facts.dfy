/** What the lexer's output means, stated without reference to the scan loop: a source is
    split into gaps (whitespace and comments) and maximal tokens, and the scan returns
    exactly that split, or fails at the first place where none exists. */
module LexerFacts {
  import opened Tokens
  import opened Errors
  import opened Lexer

  /** The offset just past a token's lexeme. */
  function End(t: Token): nat {
    t.pos + |t.lexeme|
  }

  /** `src[a..b]` is made of whitespace characters and whole `#` comments only. */
  predicate Gap(src: string, a: nat, b: nat)
    decreases b - a
  {
    && a <= b <= |src|
    && (|| a == b
        || (IsWhitespace(src[a]) && Gap(src, a + 1, b))
        || (src[a] == '#' && CommentEnd(src, a) <= b && Gap(src, CommentEnd(src, a), b)))
  }

  predicate IsWord(s: string) {
    |s| > 0 && IsLetter(s[0]) && forall i | 0 < i < |s| :: IsLetterOrDigit(s[i])
  }

  /** The three shapes of a non-EOF token: a digit run with its decimal value, a
      letter-initial word with the type the keyword table gives the whole word, or one
      symbol character with its table type. */
  predicate WellFormed(t: Token) {
    || (t.kind == NUMBER && |t.lexeme| > 0 && IsDigits(t.lexeme) && t.value as int == DecimalValue(t.lexeme))
    || (IsWord(t.lexeme) && t.kind == WordKind(t.lexeme) && t.value == 0)
    || (|t.lexeme| == 1 && SymbolKind(t.lexeme[0]) == Some(t.kind) && t.value == 0)
  }

  /** `t` is read from `src` at `t.pos`, and its digit or word run cannot be extended. */
  predicate Occurs(src: string, t: Token) {
    && End(t) <= |src|
    && src[t.pos..End(t)] == t.lexeme
    && (End(t) < |src| && t.kind == NUMBER ==> !IsDigit(src[End(t)]))
    && (End(t) < |src| && IsWord(t.lexeme) ==> !IsLetterOrDigit(src[End(t)]))
  }

  /** `src[from..upTo]` splits into gaps and the well-formed, maximal tokens `ts`. */
  predicate TokensUpTo(src: string, from: nat, ts: seq<Token>, upTo: nat)
    decreases |ts|
  {
    if ts == [] then Gap(src, from, upTo)
    else
      && WellFormed(ts[0])
      && Occurs(src, ts[0])
      && Gap(src, from, ts[0].pos)
      && TokensUpTo(src, End(ts[0]), ts[1..], upTo)
  }

  /** `ts` is a tokenization of `src[from..]`: its tokens, then the end marker at `|src|`. */
  predicate Tokenizes(src: string, from: nat, ts: seq<Token>) {
    && |ts| > 0
    && ts[|ts| - 1] == EofToken(|src|)
    && TokensUpTo(src, from, ts[..|ts| - 1], |src|)
  }

  /** A character the scan loop accepts as the start of something. */
  predicate Acceptable(c: char) {
    IsWhitespace(c) || c == '#' || IsDigit(c) || IsLetter(c) || SymbolKind(c).Some?
  }

  // ---------------------------------------------------------------------------------
  // Runs
  // ---------------------------------------------------------------------------------

  lemma {:induction false} DigitsEndIs(src: string, p: nat, q: nat)
    requires p <= q <= |src|
    requires forall k | p <= k < q :: IsDigit(src[k])
    requires q < |src| ==> !IsDigit(src[q])
    ensures DigitsEnd(src, p) == q
    decreases q - p
  {
    if p < q {
      DigitsEndIs(src, p + 1, q);
    }
  }

  lemma {:induction false} WordEndIs(src: string, p: nat, q: nat)
    requires p <= q <= |src|
    requires forall k | p <= k < q :: IsLetterOrDigit(src[k])
    requires q < |src| ==> !IsLetterOrDigit(src[q])
    ensures WordEnd(src, p) == q
    decreases q - p
  {
    if p < q {
      WordEndIs(src, p + 1, q);
    }
  }

  // ---------------------------------------------------------------------------------
  // From the relation to the scan
  // ---------------------------------------------------------------------------------

  /** The scan skips a gap without producing anything. */
  lemma {:induction false} GapScan(src: string, a: nat, b: nat)
    requires Gap(src, a, b)
    ensures Scan(src, a) == Scan(src, b)
    decreases b - a
  {
    if a < b {
      if IsWhitespace(src[a]) {
        GapScan(src, a + 1, b);
      } else {
        GapScan(src, CommentEnd(src, a), b);
      }
    }
  }

  /** The symbol characters are none of the other classes. */
  lemma SymbolIsNotOther(c: char)
    requires SymbolKind(c).Some?
    ensures !IsWhitespace(c) && c != '#' && !IsDigit(c) && !IsLetter(c)
    ensures SymbolKind(c).value != NUMBER
  {
  }

  /** A keyword lookup never yields NUMBER or EOF. */
  lemma WordKindIsWord(w: string)
    ensures WordKind(w) != NUMBER && WordKind(w) != EOF
  {
  }

  /** At the start of a well-formed, maximal token the scan reads exactly that token. */
  lemma TokenScan(src: string, t: Token)
    requires WellFormed(t) && Occurs(src, t)
    ensures t.pos < End(t) <= |src|
    ensures StepAt(src, t.pos) == Emit(t, End(t))
  {
    if t.kind == NUMBER && |t.lexeme| > 0 && IsDigits(t.lexeme) && t.value as int == DecimalValue(t.lexeme) {
      NumberScan(src, t);
    } else if IsWord(t.lexeme) && t.kind == WordKind(t.lexeme) && t.value == 0 {
      WordScan(src, t);
    } else {
      SymbolScan(src, t);
    }
  }

  lemma NumberScan(src: string, t: Token)
    requires t.kind == NUMBER && |t.lexeme| > 0 && IsDigits(t.lexeme) && t.value as int == DecimalValue(t.lexeme)
    requires Occurs(src, t)
    ensures t.pos < |src| && StepAt(src, t.pos) == Emit(t, End(t))
  {
    assert src[t.pos] == t.lexeme[0];
    forall k | t.pos <= k < End(t)
      ensures IsDigit(src[k])
    {
      assert src[k] == src[t.pos..End(t)][k - t.pos];
    }
    DigitsEndIs(src, t.pos, End(t));
  }

  lemma WordScan(src: string, t: Token)
    requires IsWord(t.lexeme) && t.kind == WordKind(t.lexeme) && t.value == 0
    requires Occurs(src, t)
    ensures t.pos < |src| && StepAt(src, t.pos) == Emit(t, End(t))
  {
    WordRun(src, t);
    var w := src[t.pos..WordEnd(src, t.pos + 1)];
    assert StepAt(src, t.pos) == Emit(Token(WordKind(w), w, 0, t.pos), End(t));
  }

  /** The run the scan reads at the start of a maximal word is that word. */
  lemma WordRun(src: string, t: Token)
    requires IsWord(t.lexeme) && Occurs(src, t)
    ensures t.pos < |src| && IsLetter(src[t.pos]) && !IsWhitespace(src[t.pos]) && src[t.pos] != '#' && !IsDigit(src[t.pos])
    ensures WordEnd(src, t.pos + 1) == End(t) && src[t.pos..End(t)] == t.lexeme
  {
    assert src[t.pos] == t.lexeme[0];
    forall k | t.pos < k < End(t)
      ensures IsLetterOrDigit(src[k])
    {
      assert src[k] == src[t.pos..End(t)][k - t.pos];
    }
    WordEndIs(src, t.pos + 1, End(t));
  }

  lemma SymbolScan(src: string, t: Token)
    requires |t.lexeme| == 1 && SymbolKind(t.lexeme[0]) == Some(t.kind) && t.value == 0
    requires Occurs(src, t)
    ensures t.pos < |src| && StepAt(src, t.pos) == Emit(t, End(t))
  {
    var c := src[t.pos];
    assert c == t.lexeme[0];
    SymbolIsNotOther(c);
    assert t.lexeme == [c];
  }

  /** The scan reads a split prefix of the source and then goes on from where it ends. */
  lemma {:induction false} UpToScan(src: string, from: nat, ts: seq<Token>, upTo: nat)
    requires TokensUpTo(src, from, ts, upTo)
    ensures from <= upTo <= |src|
    ensures Scan(src, from) == Prefixed(ts, Scan(src, upTo))
    decreases |ts|
  {
    if ts == [] {
      GapScan(src, from, upTo);
      PrefixedEmpty(Scan(src, upTo));
    } else {
      var t := ts[0];
      GapScan(src, from, t.pos);
      TokenScan(src, t);
      assert Scan(src, t.pos) == Prefixed([t], Scan(src, End(t)));
      UpToScan(src, End(t), ts[1..], upTo);
      PrefixedCons(t, ts[1..], Scan(src, upTo));
      assert [t] + ts[1..] == ts;
    }
  }

  lemma PrefixedCons(t: Token, ts: seq<Token>, r: Result<seq<Token>>)
    ensures Prefixed([t], Prefixed(ts, r)) == Prefixed([t] + ts, r)
  {
    if r.Ok? {
      assert [t] + (ts + r.value) == [t] + ts + r.value;
    }
  }

  /** Every tokenization of the source is what the scan returns: there is at most one. */
  lemma TokenizesScan(src: string, from: nat, ts: seq<Token>)
    requires Tokenizes(src, from, ts)
    ensures Scan(src, from) == Ok(ts)
  {
    var body := ts[..|ts| - 1];
    UpToScan(src, from, body, |src|);
    assert body + [EofToken(|src|)] == ts;
  }

  // ---------------------------------------------------------------------------------
  // From the scan to the relation
  // ---------------------------------------------------------------------------------

  /** A skip step of the scan moves the start of a split back over the skipped text. */
  lemma SkipExtends(src: string, from: nat, ts: seq<Token>, upTo: nat)
    requires from < |src| && StepAt(src, from).Skip?
    requires TokensUpTo(src, StepAt(src, from).next, ts, upTo)
    ensures TokensUpTo(src, from, ts, upTo)
  {
    var next := StepAt(src, from).next;
    var b := if ts == [] then upTo else ts[0].pos;
    assert Gap(src, next, b);
    assert Gap(src, from, b);
  }

  /** A token step of the scan reads a well-formed, maximal token. */
  lemma EmitIsToken(src: string, from: nat)
    requires from < |src| && StepAt(src, from).Emit?
    ensures var t := StepAt(src, from).token;
      WellFormed(t) && Occurs(src, t) && t.pos == from && End(t) == StepAt(src, from).next
  {
    var c := src[from];
    if IsDigit(c) {
    } else if IsLetter(c) {
      WordKindIsWord(src[from..WordEnd(src, from + 1)]);
    } else {
      SymbolIsNotOther(c);
    }
  }

  /** The scan's tokens, minus the end marker, split the source from `from` to its end. */
  lemma {:induction false} ScanTokenizes(src: string, from: nat)
    requires from <= |src| && Scan(src, from).Ok?
    ensures Tokenizes(src, from, Scan(src, from).value)
    decreases |src| - from
  {
    if from < |src| {
      var step := StepAt(src, from);
      ScanTokenizes(src, step.next);
      var rest := Scan(src, step.next).value;
      if step.Skip? {
        SkipExtends(src, from, rest[..|rest| - 1], |src|);
      } else {
        EmitIsToken(src, from);
        var ts := [step.token] + rest;
        assert ts[..|ts| - 1][1..] == rest[..|rest| - 1];
      }
    }
  }

  /** The lexer succeeds on `src[from..]` with `ts` exactly when `ts` splits it into gaps
      and maximal well-formed tokens followed by the end marker. */
  lemma ScanIff(src: string, from: nat, ts: seq<Token>)
    requires from <= |src|
    ensures Scan(src, from) == Ok(ts) <==> Tokenizes(src, from, ts)
  {
    if Scan(src, from) == Ok(ts) {
      ScanTokenizes(src, from);
    }
    if Tokenizes(src, from, ts) {
      TokenizesScan(src, from, ts);
    }
  }

  // ---------------------------------------------------------------------------------
  // What a split says about positions and lexemes
  // ---------------------------------------------------------------------------------

  /** A well-formed token read from the source: it is not the end marker, it is not
      empty, it lies inside the source, and it holds no whitespace and no `#`. */
  lemma TokenFacts(src: string, t: Token)
    requires WellFormed(t) && Occurs(src, t)
    ensures t.kind != EOF && t.pos < End(t) <= |src|
    ensures forall i | 0 <= i < |t.lexeme| :: !IsWhitespace(t.lexeme[i]) && t.lexeme[i] != '#'
  {
    WordKindIsWord(t.lexeme);
    if |t.lexeme| == 1 && SymbolKind(t.lexeme[0]) == Some(t.kind) {
      SymbolIsNotOther(t.lexeme[0]);
    }
  }

  /** Every token of a split is well formed and read from the source. */
  lemma {:induction false} TokensUpToEach(src: string, from: nat, ts: seq<Token>, upTo: nat)
    requires TokensUpTo(src, from, ts, upTo)
    ensures forall k | 0 <= k < |ts| :: WellFormed(ts[k]) && Occurs(src, ts[k])
    decreases |ts|
  {
    if ts != [] {
      TokensUpToEach(src, End(ts[0]), ts[1..], upTo);
      assert forall k | 1 <= k < |ts| :: ts[k] == ts[1..][k - 1];
    }
  }

  /** The tokens of a split lie inside it, in order and without overlapping. */
  lemma {:induction false} TokensUpToOrdered(src: string, from: nat, ts: seq<Token>, upTo: nat)
    requires TokensUpTo(src, from, ts, upTo)
    ensures from <= upTo <= |src|
    ensures forall k | 0 <= k < |ts| :: from <= ts[k].pos && End(ts[k]) <= upTo
    ensures forall j, k | 0 <= j < k < |ts| :: End(ts[j]) <= ts[k].pos
    decreases |ts|
  {
    if ts != [] {
      var t := ts[0];
      TokenFacts(src, t);
      TokensUpToOrdered(src, End(t), ts[1..], upTo);
      assert forall k | 1 <= k < |ts| :: ts[k] == ts[1..][k - 1];
    }
  }

  /** What a successful lex returns: well-formed maximal tokens, none of them the end
      marker, each equal to the source text at its position, in strictly increasing order
      of position, followed by the one end marker, at `|src|`. */
  lemma LexSucceeded(src: string, ts: seq<Token>)
    requires Scan(src, 0) == Ok(ts)
    ensures |ts| > 0 && ts[|ts| - 1] == EofToken(|src|)
    ensures forall k | 0 <= k < |ts| - 1 ::
      && ts[k].kind != EOF
      && WellFormed(ts[k])
      && End(ts[k]) <= |src|
      && src[ts[k].pos..End(ts[k])] == ts[k].lexeme
    ensures forall j, k | 0 <= j < k < |ts| :: ts[j].pos < ts[k].pos
  {
    ScanTokenizes(src, 0);
    TokenizationEach(src, ts);
    TokenizationOrdered(src, ts);
  }

  lemma TokenizationEach(src: string, ts: seq<Token>)
    requires Tokenizes(src, 0, ts)
    ensures forall k | 0 <= k < |ts| - 1 ::
      && ts[k].kind != EOF
      && WellFormed(ts[k])
      && End(ts[k]) <= |src|
      && src[ts[k].pos..End(ts[k])] == ts[k].lexeme
      && ts[k].pos < End(ts[k])
  {
    var body := ts[..|ts| - 1];
    TokensUpToEach(src, 0, body, |src|);
    forall k | 0 <= k < |ts| - 1
      ensures ts[k].kind != EOF && ts[k].pos < End(ts[k])
    {
      assert ts[k] == body[k];
      TokenFacts(src, body[k]);
    }
  }

  lemma TokenizationOrdered(src: string, ts: seq<Token>)
    requires Tokenizes(src, 0, ts)
    ensures forall j, k | 0 <= j < k < |ts| :: ts[j].pos < ts[k].pos
  {
    var body := ts[..|ts| - 1];
    TokensUpToEach(src, 0, body, |src|);
    TokensUpToOrdered(src, 0, body, |src|);
    forall j, k | 0 <= j < k < |ts|
      ensures ts[j].pos < ts[k].pos
    {
      assert ts[j] == body[j];
      TokenFacts(src, body[j]);
      if k < |ts| - 1 {
        assert ts[k] == body[k];
      }
    }
  }

  // ---------------------------------------------------------------------------------
  // Failures
  // ---------------------------------------------------------------------------------

  /** When the lexer fails, it has read a split of the source up to the failure position,
      and there it finds either a character nothing accepts, or a digit run whose value
      exceeds 2^63 - 1 (the failure then cites the run). */
  lemma {:induction false} ScanFailed(src: string, from: nat) returns (read: seq<Token>)
    requires from <= |src| && Scan(src, from).Err?
    ensures var e := Scan(src, from).error;
      && TokensUpTo(src, from, read, e.pos)
      && from <= e.pos < |src|
      && (|| (!Acceptable(src[e.pos]) && e == Error(UnexpectedCharacter(src[e.pos]), None, e.pos))
          || (&& IsDigit(src[e.pos])
              && var run := src[e.pos..DigitsEnd(src, e.pos)];
                 e == Error(NumberOutOfRange, Some(run), e.pos) && DecimalValue(run) > MaxLong))
    decreases |src| - from
  {
    var e := Scan(src, from).error;
    var step := StepAt(src, from);
    match step
    case Fail(_) =>
      read := [];
    case Skip(next) =>
      read := ScanFailed(src, next);
      SkipExtends(src, from, read, e.pos);
    case Emit(t, next) =>
      var rest := ScanFailed(src, next);
      EmitIsToken(src, from);
      read := [t] + rest;
      assert read[1..] == rest;
  }

  /** A character nothing accepts, met where the next token would start, is where the
      lexer fails. */
  lemma UnexpectedCharacterFails(src: string, from: nat, read: seq<Token>, p: nat)
    requires TokensUpTo(src, from, read, p) && p < |src| && !Acceptable(src[p])
    ensures Scan(src, from) == Err(Error(UnexpectedCharacter(src[p]), None, p))
  {
    UpToScan(src, from, read, p);
  }

  /** A digit run met where the next token would start makes the lexer fail with
      "number out of range" at that run exactly when its value exceeds 2^63 - 1. */
  lemma NumberOutOfRangeIff(src: string, from: nat, read: seq<Token>, p: nat)
    requires TokensUpTo(src, from, read, p) && p < |src| && IsDigit(src[p])
    ensures var run := src[p..DigitsEnd(src, p)];
      Scan(src, from) == Err(Error(NumberOutOfRange, Some(run), p)) <==> DecimalValue(run) > MaxLong
  {
    UpToScan(src, from, read, p);
    var end := DigitsEnd(src, p);
    if DecimalValue(src[p..end]) <= MaxLong && Scan(src, end).Err? {
      var _ := ScanFailed(src, end);
    }
  }
}
