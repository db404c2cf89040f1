/** Tokens of the strategy language, as produced by the lexer. */
module Tokens {

  /** Java's 64-bit signed `long`. */
  newtype Long = x: int | -0x8000_0000_0000_0000 <= x <= 0x7FFF_FFFF_FFFF_FFFF

  /** `Long.MAX_VALUE`, the largest numeric literal the lexer accepts. */
  const MaxLong: int := 0x7FFF_FFFF_FFFF_FFFF

  datatype Option<+T> = None | Some(value: T)

  /** The token types, spelled as the source's enumeration spells them. */
  datatype TokenType =
    // symbols
    | PLUS | MINUS | STAR | SLASH | PERCENT
    | CARET | EQUAL | LPAREN | RPAREN | LBRACE | RBRACE
    // literals and identifiers
    | NUMBER | IDENT
    // keywords
    | DONE | MOVE | SHOOT | IF | THEN | ELSE | WHILE
    | ALLY | OPPONENT | NEARBY
    // directions
    | UP | DOWN | UPLEFT | UPRIGHT | DOWNLEFT | DOWNRIGHT
    // end of input
    | EOF

  /** A token: its type, the text it was read from, its numeric value (0 unless it is a
      NUMBER) and the offset in the source at which it starts. */
  datatype Token = Token(kind: TokenType, lexeme: string, value: Long, pos: nat)

  /** The end-marker token the lexer appends for a source of length `n`. */
  function EofToken(n: nat): Token {
    Token(EOF, "", 0, n)
  }

  /** A token list the parser can walk: it is not empty and ends with the end marker. */
  predicate EndsWithEof(ts: seq<Token>) {
    |ts| > 0 && ts[|ts| - 1].kind == EOF
  }
}
