/** The lexer: one left-to-right scan of the source text into tokens. */
module Lexer {
  import opened Tokens
  import opened Errors

  // ---------------------------------------------------------------------------------
  // Character classes
  // ---------------------------------------------------------------------------------

  /** Java's `Character.isWhitespace`: the ASCII controls 9-13 and 28-31, and the Unicode
      space, line and paragraph separators other than the three non-breaking spaces. */
  predicate IsWhitespace(c: char) {
    var n := c as int;
    || 0x09 <= n <= 0x0D
    || 0x1C <= n <= 0x20
    || n == 0x1680
    || 0x2000 <= n <= 0x2006
    || 0x2008 <= n <= 0x200A
    || n == 0x2028 || n == 0x2029 || n == 0x205F || n == 0x3000
  }

  predicate IsDigit(c: char) {
    '0' <= c <= '9'
  }

  predicate IsLetter(c: char) {
    'a' <= c <= 'z' || 'A' <= c <= 'Z'
  }

  predicate IsLetterOrDigit(c: char) {
    IsLetter(c) || IsDigit(c)
  }

  predicate IsDigits(s: string) {
    forall i | 0 <= i < |s| :: IsDigit(s[i])
  }

  // ---------------------------------------------------------------------------------
  // The keyword and symbol tables
  // ---------------------------------------------------------------------------------

  /** The keyword table: the token type of a word that is a keyword, None for any other. */
  function KeywordKind(w: string): Option<TokenType> {
    if w == "done" then Some(DONE)
    else if w == "move" then Some(MOVE)
    else if w == "shoot" then Some(SHOOT)
    else if w == "if" then Some(IF)
    else if w == "then" then Some(THEN)
    else if w == "else" then Some(ELSE)
    else if w == "while" then Some(WHILE)
    else if w == "ally" then Some(ALLY)
    else if w == "opponent" then Some(OPPONENT)
    else if w == "nearby" then Some(NEARBY)
    else if w == "up" then Some(UP)
    else if w == "down" then Some(DOWN)
    else if w == "upleft" then Some(UPLEFT)
    else if w == "upright" then Some(UPRIGHT)
    else if w == "downleft" then Some(DOWNLEFT)
    else if w == "downright" then Some(DOWNRIGHT)
    else None
  }

  /** The symbol table: the token type of each of the eleven one-character symbols. */
  function SymbolKind(c: char): Option<TokenType> {
    match c
    case '+' => Some(PLUS)
    case '-' => Some(MINUS)
    case '*' => Some(STAR)
    case '/' => Some(SLASH)
    case '%' => Some(PERCENT)
    case '^' => Some(CARET)
    case '=' => Some(EQUAL)
    case '(' => Some(LPAREN)
    case ')' => Some(RPAREN)
    case '{' => Some(LBRACE)
    case '}' => Some(RBRACE)
    case _ => None
  }

  /** The token type of a whole letter-initial run: its keyword type, or IDENT. */
  function WordKind(w: string): TokenType {
    match KeywordKind(w)
    case Some(k) => k
    case None => IDENT
  }

  // ---------------------------------------------------------------------------------
  // Numbers
  // ---------------------------------------------------------------------------------

  /** The decimal value of a digit string, read most significant digit first. */
  function DecimalValue(s: string): nat
    requires IsDigits(s)
  {
    if s == [] then 0 else 10 * DecimalValue(s[..|s| - 1]) + (s[|s| - 1] as int - '0' as int)
  }

  /** `Long.parseLong` on a non-empty digit string: None when the value does not fit. */
  function ParseLong(s: string): (r: Option<Long>)
    requires |s| > 0 && IsDigits(s)
    ensures r.Some? <==> DecimalValue(s) <= MaxLong
    ensures r.Some? ==> r.value as int == DecimalValue(s)
  {
    var v := DecimalValue(s);
    if v <= MaxLong then Some(v as Long) else None
  }

  // ---------------------------------------------------------------------------------
  // Runs
  // ---------------------------------------------------------------------------------

  /** The end of the maximal digit run that starts at `p`. */
  function DigitsEnd(src: string, p: nat): (q: nat)
    requires p <= |src|
    ensures p <= q <= |src|
    ensures forall k | p <= k < q :: IsDigit(src[k])
    ensures q < |src| ==> !IsDigit(src[q])
    decreases |src| - p
  {
    if p < |src| && IsDigit(src[p]) then DigitsEnd(src, p + 1) else p
  }

  /** The end of the maximal letter-or-digit run that starts at `p`. */
  function WordEnd(src: string, p: nat): (q: nat)
    requires p <= |src|
    ensures p <= q <= |src|
    ensures forall k | p <= k < q :: IsLetterOrDigit(src[k])
    ensures q < |src| ==> !IsLetterOrDigit(src[q])
    decreases |src| - p
  {
    if p < |src| && IsLetterOrDigit(src[p]) then WordEnd(src, p + 1) else p
  }

  /** The end of the comment that starts at `p`: the next newline, or the end of the source.
      The newline itself is not part of the comment. */
  function CommentEnd(src: string, p: nat): (q: nat)
    requires p <= |src|
    ensures p <= q <= |src|
    ensures forall k | p <= k < q :: src[k] != '\n'
    ensures q < |src| ==> src[q] == '\n'
    decreases |src| - p
  {
    if p < |src| && src[p] != '\n' then CommentEnd(src, p + 1) else p
  }

  // ---------------------------------------------------------------------------------
  // The scan
  // ---------------------------------------------------------------------------------

  /** `ts` followed by the tokens of `r`, or the failure of `r`. */
  function Prefixed(ts: seq<Token>, r: Result<seq<Token>>): Result<seq<Token>> {
    match r
    case Ok(rest) => Ok(ts + rest)
    case Err(e) => Err(e)
  }

  /** What one iteration of the scan loop does at offset `pos`. */
  datatype Step = Skip(next: nat) | Emit(token: Token, next: nat) | Fail(error: Error)

  /** One iteration of the scan loop at `pos`: skip a whitespace character or a comment,
      read one token, or fail. Every step moves forward. */
  function StepAt(src: string, pos: nat): (r: Step)
    requires pos < |src|
    ensures !r.Fail? ==> pos < r.next <= |src|
  {
    var c := src[pos];
    if IsWhitespace(c) then Skip(pos + 1)
    else if c == '#' then Skip(CommentEnd(src, pos))
    else if IsDigit(c) then
      var end := DigitsEnd(src, pos);
      var s := src[pos..end];
      match ParseLong(s)
      case None => Fail(Error(NumberOutOfRange, Some(s), pos))
      case Some(v) => Emit(Token(NUMBER, s, v, pos), end)
    else if IsLetter(c) then
      var end := WordEnd(src, pos + 1);
      var w := src[pos..end];
      Emit(Token(WordKind(w), w, 0, pos), end)
    else if SymbolKind(c).Some? then
      Emit(Token(SymbolKind(c).value, [c], 0, pos), pos + 1)
    else Fail(Error(UnexpectedCharacter(c), None, pos))
  }

  /** The tokens of `src` from offset `pos` on: what the scan loop of the lexer produces
      when it reaches `pos`. The list always ends with the one end marker, at `|src|`. */
  function Scan(src: string, pos: nat): (r: Result<seq<Token>>)
    requires pos <= |src|
    ensures r.Ok? ==> EndsWithEof(r.value) && r.value[|r.value| - 1] == EofToken(|src|)
    decreases |src| - pos
  {
    if pos == |src| then Ok([EofToken(|src|)])
    else
      match StepAt(src, pos)
      case Skip(next) => Scan(src, next)
      case Emit(t, next) => Prefixed([t], Scan(src, next))
      case Fail(e) => Err(e)
  }

  lemma PrefixedEmpty(r: Result<seq<Token>>)
    ensures Prefixed([], r) == r
  {
    if r.Ok? { assert [] + r.value == r.value; }
  }

  lemma PrefixedAppend(ts: seq<Token>, t: Token, r: Result<seq<Token>>)
    ensures Prefixed(ts, Prefixed([t], r)) == Prefixed(ts + [t], r)
  {
    if r.Ok? {
      assert ts + ([t] + r.value) == ts + [t] + r.value;
    }
  }

  /** The comment loop: from the `#` at `start` to the next newline or the end. */
  method SkipComment(src: string, start: nat) returns (pos: nat)
    requires start <= |src|
    ensures pos == CommentEnd(src, start)
  {
    pos := start;
    while pos < |src| && src[pos] != '\n'
      invariant start <= pos <= |src|
      invariant CommentEnd(src, pos) == CommentEnd(src, start)
    {
      pos := pos + 1;
    }
  }

  /** The number branch of the scan loop: the maximal digit run at `start` and its value. */
  method ReadNumber(src: string, start: nat) returns (r: Step)
    requires start < |src| && IsDigit(src[start])
    ensures r == StepAt(src, start)
  {
    var pos := start;
    while pos < |src| && IsDigit(src[pos])
      invariant start <= pos <= |src|
      invariant DigitsEnd(src, pos) == DigitsEnd(src, start)
    {
      pos := pos + 1;
    }
    var s := src[start..pos];
    var v := ParseLong(s);
    if v.None? {
      return Fail(Error(NumberOutOfRange, Some(s), start));
    }
    return Emit(Token(NUMBER, s, v.value, start), pos);
  }

  /** The word branch of the scan loop: the maximal letter-or-digit run at `start`,
      classified by the keyword table. */
  method ReadWord(src: string, start: nat) returns (r: Step)
    requires start < |src| && IsLetter(src[start])
    ensures r == StepAt(src, start)
  {
    var pos := start + 1;
    while pos < |src| && IsLetterOrDigit(src[pos])
      invariant start < pos <= |src|
      invariant WordEnd(src, pos) == WordEnd(src, start + 1)
    {
      pos := pos + 1;
    }
    var ident := src[start..pos];
    var kw := KeywordKind(ident);
    if kw.Some? {
      return Emit(Token(kw.value, ident, 0, start), pos);
    }
    return Emit(Token(IDENT, ident, 0, start), pos);
  }

  /** Taking one step of the scan keeps the loop invariant of Lex. */
  lemma ScanAdvances(src: string, pos: nat, tokens: seq<Token>)
    requires pos < |src| && !StepAt(src, pos).Fail?
    requires Scan(src, 0) == Prefixed(tokens, Scan(src, pos))
    ensures var step := StepAt(src, pos);
      Scan(src, 0) == Prefixed(tokens + (if step.Emit? then [step.token] else []), Scan(src, step.next))
  {
    var step := StepAt(src, pos);
    if step.Emit? {
      PrefixedAppend(tokens, step.token, Scan(src, step.next));
    } else {
      assert tokens + [] == tokens;
    }
  }

  /** The lexer: the tokens of the whole source, or the first lexical failure. */
  method Lex(src: string) returns (r: Result<seq<Token>>)
    ensures r == Scan(src, 0)
  {
    var tokens: seq<Token> := [];
    var pos := 0;
    PrefixedEmpty(Scan(src, 0));

    while pos < |src|
      invariant pos <= |src|
      invariant Scan(src, 0) == Prefixed(tokens, Scan(src, pos))
    {
      var c := src[pos];
      var step: Step;
      if IsWhitespace(c) {
        step := Skip(pos + 1);
      } else if c == '#' {  // comment to end of line
        var end := SkipComment(src, pos);
        step := Skip(end);
      } else if IsDigit(c) {
        step := ReadNumber(src, pos);
      } else if IsLetter(c) {
        step := ReadWord(src, pos);
      } else {
        var sym := SymbolKind(c);
        if sym.Some? {
          step := Emit(Token(sym.value, [c], 0, pos), pos + 1);
        } else {
          step := Fail(Error(UnexpectedCharacter(c), None, pos));
        }
      }
      assert step == StepAt(src, pos);

      if step.Fail? {
        return Err(step.error);
      }
      ScanAdvances(src, pos, tokens);
      if step.Emit? {
        tokens := tokens + [step.token];
      }
      pos := step.next;
    }

    tokens := tokens + [EofToken(pos)];
    return Ok(tokens);
  }
}
