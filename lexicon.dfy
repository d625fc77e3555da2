/** Character classes, token codes and the operator table of the analyzer,
    plus the C-string view of a character buffer. */
module Lexicon {

  /** The C NUL character that terminates the lexeme buffer. */
  const NUL: char := 0 as char

  /** The value `nextChar` holds once `getc` has reported end of input:
      `(char)EOF`, that is 0xFF. */
  const EofChar: char := 255 as char

  /** The character classes `getChar` assigns (LETTER, DIGIT, UNKNOWN, EOF). */
  datatype CharClass = Letter | Digit | Unknown | EndOfInput

  /** Token codes: INT_LIT (10), IDENT (11), ADD_OP (21), SUB_OP (22),
      MULT_OP (23), DIV_OP (24), LEFT_PAREN (25), RIGHT_PAREN (26) and EOF (-1).
      ASSIGN_OP (20) is declared by the program but never produced. */
  datatype Token = IntLit | Ident | AddOp | SubOp | MultOp | DivOp | LeftParen | RightParen | Eof

  /** `isalpha` in the C locale. */
  predicate IsAlpha(c: char) {
    'a' <= c <= 'z' || 'A' <= c <= 'Z'
  }

  /** `isdigit`. */
  predicate IsDigit(c: char) {
    '0' <= c <= '9'
  }

  /** `isspace` in the C locale: space, tab, newline, vertical tab, form feed, carriage return. */
  predicate IsSpace(c: char) {
    c == ' ' || c == '\t' || c == '\n' || c == 11 as char || c == 12 as char || c == '\r'
  }

  /** A character that may continue an identifier. */
  predicate IsWordChar(c: char) {
    IsAlpha(c) || IsDigit(c)
  }

  /** The class `getChar` gives a character it has read. */
  function ClassOf(c: char): (k: CharClass)
    ensures k == Letter <==> IsAlpha(c)
    ensures k == Digit <==> IsDigit(c)
    ensures k != EndOfInput
  {
    if IsAlpha(c) then Letter
    else if IsDigit(c) then Digit
    else Unknown
  }

  /** The class of the lookahead at index `pos` of the input (end of input at `|input|`). */
  function ClassAt(input: string, pos: nat): CharClass
    requires pos <= |input|
  {
    if pos == |input| then EndOfInput else ClassOf(input[pos])
  }

  /** The value of `nextChar` when the lookahead is at index `pos`. */
  function CharAt(input: string, pos: nat): char
    requires pos <= |input|
  {
    if pos == |input| then EofChar else input[pos]
  }

  /** The six characters `lookup` recognises. */
  predicate IsOperatorChar(c: char) {
    c == '(' || c == ')' || c == '+' || c == '-' || c == '*' || c == '/'
  }

  /** The tokens `lookup` can give for a recognised character. */
  predicate IsOperator(t: Token) {
    t == AddOp || t == SubOp || t == MultOp || t == DivOp || t == LeftParen || t == RightParen
  }

  /** `lookup`: the token of a single punctuation character. Every other
      character gives EOF, the code that also signals end of input. */
  function LookupToken(c: char): (t: Token)
    ensures IsOperator(t) <==> IsOperatorChar(c)
    ensures !IsOperator(t) ==> t == Eof
    ensures IsOperator(t) ==> OperatorChar(t) == c
  {
    match c
    case '(' => LeftParen
    case ')' => RightParen
    case '+' => AddOp
    case '-' => SubOp
    case '*' => MultOp
    case '/' => DivOp
    case _ => Eof
  }

  /** The character that stands for an operator token: the inverse of `LookupToken`. */
  function OperatorChar(t: Token): (c: char)
    requires IsOperator(t)
    ensures IsOperatorChar(c)
  {
    match t
    case LeftParen => '('
    case RightParen => ')'
    case AddOp => '+'
    case SubOp => '-'
    case MultOp => '*'
    case DivOp => '/'
  }

  /** `LookupToken` and `OperatorChar` are inverse bijections between the six
      punctuation characters and the six operator tokens. */
  lemma OperatorTableBijective(t: Token, c: char)
    ensures IsOperator(t) ==> LookupToken(OperatorChar(t)) == t
    ensures IsOperatorChar(c) ==> OperatorChar(LookupToken(c)) == c
  {
  }

  /** What `%s` prints of a character buffer. */
  function CString(buf: seq<char>): string
  {
    if |buf| == 0 || buf[0] == NUL then [] else [buf[0]] + CString(buf[1..])
  }

  /** `%s` prints the characters before the first NUL: a prefix of the buffer
      without a NUL, followed in the buffer by a NUL unless it is all of it. */
  lemma {:induction false} CStringPrefix(buf: seq<char>)
    ensures var r := CString(buf);
      && |r| <= |buf| && r == buf[..|r|]
      && NUL !in r
      && (|r| < |buf| ==> buf[|r|] == NUL)
  {
    if |buf| > 0 && buf[0] != NUL {
      CStringPrefix(buf[1..]);
    }
  }

  /** A NUL written after `t` hides whatever follows it in the buffer. */
  lemma {:induction false} CStringTerminated(t: seq<char>, rest: seq<char>)
    ensures CString(t + [NUL] + rest) == CString(t)
  {
    if |t| > 0 && t[0] != NUL {
      assert (t + [NUL] + rest)[1..] == t[1..] + [NUL] + rest;
      CStringTerminated(t[1..], rest);
    }
  }

  /** A buffer without a NUL prints in full. */
  lemma {:induction false} CStringWhole(buf: seq<char>)
    requires NUL !in buf
    ensures CString(buf) == buf
  {
    if |buf| > 0 {
      assert buf == [buf[0]] + buf[1..];
      CStringWhole(buf[1..]);
    }
  }
}
