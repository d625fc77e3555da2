/** Whole traces for a few small inputs: operator precedence, grouping by
    parentheses, a missing right parenthesis, literals beside identifiers,
    and an unrecognised character that ends the run. */
module Scenarios {
  import opened Lexicon
  import opened Scanning
  import opened Layout
  import opened Recognizer
  import opened ScenarioLines

  /** The token `lex` gives for a lexeme starting with `c`. */
  function FirstToken(c: char): Token {
    if IsAlpha(c) then Ident else if IsDigit(c) then IntLit else LookupToken(c)
  }

  /** A one-character lexeme: a punctuation character, or a letter or digit
      not followed by a letter or digit, is scanned on its own, and `%s` prints it. */
  lemma NextLookSingle(input: string, st: Lookahead)
    requires Fits(input, st) && st.pos < |input|
    requires !IsSpace(input[st.pos]) && input[st.pos] != NUL
    requires IsWordChar(input[st.pos]) ==> st.pos + 1 == |input| || !IsWordChar(input[st.pos + 1])
    ensures NextLook(input, st) == Lookahead(FirstToken(input[st.pos]), [input[st.pos]], st.pos + 1, st.overflows)
  {
    var i := st.pos;
    assert RunEnd(input, i, Blanks) == i;
    if IsWordChar(input[i]) {
      assert RunEnd(input, i + 1, Word) == i + 1;
      assert RunEnd(input, i + 1, Digits) == i + 1;
    }
    assert input[i..i + 1] == [input[i]];
    CStringWhole([input[i]]);
  }

  /** A factor that is an identifier or a literal writes its three lines and scans once. */
  lemma IdFactorStep(input: string, st: Lookahead, ind: nat)
    requires Fits(input, st) && (st.token == Ident || st.token == IntLit)
    ensures Factor(input, st, ind) == Step(IdFactor(ind, st.text), NextLook(input, st))
  {
    FactorId(input, st, ind);
  }

  /** A term made of one identifier or literal, followed by a token that is
      neither `*` nor `/`, writes the five lines of that single factor. */
  lemma IdTerm(input: string, st: Lookahead, ind: nat)
    requires Fits(input, st) && (st.token == Ident || st.token == IntLit)
    requires NextLook(input, st).token != MultOp && NextLook(input, st).token != DivOp
    ensures Term(input, st, ind) == Step(IdTermLines(ind, st.text), NextLook(input, st))
  {
    IdFactorStep(input, st, ind + 4);
    assert TermRest(input, NextLook(input, st), ind + 4) == Step([], NextLook(input, st));
  }

  /** The loop of `term` running once: an operator, then one factor that is
      followed by neither `*` nor `/`. */
  lemma TermRestOnce(input: string, st: Lookahead, ind: nat)
    requires Fits(input, st) && (st.token == MultOp || st.token == DivOp)
    requires var f := Factor(input, NextLook(input, st), ind); f.after.token != MultOp && f.after.token != DivOp
    ensures var f := Factor(input, NextLook(input, st), ind);
      TermRest(input, st, ind) == Step([OpLine(ind, st.text)] + f.trace, f.after)
  {
    var f := Factor(input, NextLook(input, st), ind);
    assert TermRest(input, f.after, ind) == Step([], f.after);
    assert [OpLine(ind, st.text)] + f.trace + [] == [OpLine(ind, st.text)] + f.trace;
  }

  /** The loop of `expr` running once: an operator, then one term that is
      followed by neither `+` nor `-`. */
  lemma ExprRestOnce(input: string, st: Lookahead, ind: nat)
    requires Fits(input, st) && (st.token == AddOp || st.token == SubOp)
    requires var t := Term(input, NextLook(input, st), ind); t.after.token != AddOp && t.after.token != SubOp
    ensures var t := Term(input, NextLook(input, st), ind);
      ExprRest(input, st, ind) == Step([OpLine(ind, st.text)] + t.trace, t.after)
  {
    var t := Term(input, NextLook(input, st), ind);
    assert ExprRest(input, t.after, ind) == Step([], t.after);
    assert [OpLine(ind, st.text)] + t.trace + [] == [OpLine(ind, st.text)] + t.trace;
  }

  // ---- a+b*c ----

  /** `a+b*c` is scanned as `a`, `+`, `b`, `*`, `c` and end of input. */
  lemma PrecedenceTokens(input: string)
    requires input == "a+b*c"
    ensures NextLook(input, Initial) == Lookahead(Ident, "a", 1, 0)
    ensures NextLook(input, Lookahead(Ident, "a", 1, 0)) == Lookahead(AddOp, "+", 2, 0)
    ensures NextLook(input, Lookahead(AddOp, "+", 2, 0)) == Lookahead(Ident, "b", 3, 0)
    ensures NextLook(input, Lookahead(Ident, "b", 3, 0)) == Lookahead(MultOp, "*", 4, 0)
    ensures NextLook(input, Lookahead(MultOp, "*", 4, 0)) == Lookahead(Ident, "c", 5, 0)
    ensures NextLook(input, Lookahead(Ident, "c", 5, 0)) == Lookahead(Eof, "EOF", 5, 0)
  {
    NextLookSingle(input, Initial);
    NextLookSingle(input, Lookahead(Ident, "a", 1, 0));
    NextLookSingle(input, Lookahead(AddOp, "+", 2, 0));
    NextLookSingle(input, Lookahead(Ident, "b", 3, 0));
    NextLookSingle(input, Lookahead(MultOp, "*", 4, 0));
    NextLookAtEnd(input, Lookahead(Ident, "c", 5, 0));
  }

  /** `a+b*c`: the product `b*c` is one term, the second operand of `+`, so
      `*` binds more tightly than `+`. */
  lemma PrecedenceTrace(input: string)
    requires input == "a+b*c"
    ensures Trace(input) ==
      [Indented(0, "[expr"),
       Indented(4, "[term"),
       Indented(8, "[factor"), Indented(12, "[id [a]]"), Indented(8, "]"),
       Indented(4, "]"),
       Indented(4, "[+]")] +
      [Indented(4, "[term"),
       Indented(8, "[factor"), Indented(12, "[id [b]]"), Indented(8, "]"),
       Indented(8, "[*]"),
       Indented(8, "[factor"), Indented(12, "[id [c]]"), Indented(8, "]"),
       Indented(4, "]")] +
      [Indented(0, "]")]
  {
    PrecedenceTokens(input);
    var a := Lookahead(Ident, "a", 1, 0);
    var plus := Lookahead(AddOp, "+", 2, 0);
    var b := Lookahead(Ident, "b", 3, 0);
    var times := Lookahead(MultOp, "*", 4, 0);
    var c := Lookahead(Ident, "c", 5, 0);
    var end := Lookahead(Eof, "EOF", 5, 0);
    IdTerm(input, a, 4);
    IdFactorStep(input, b, 8);
    IdFactorStep(input, c, 8);
    TermRestOnce(input, times, 8);
    var product := [Indented(4, "[term")] + IdFactor(8, "b") + ([OpLine(8, "*")] + IdFactor(8, "c")) + [Indented(4, "]")];
    assert Term(input, b, 4) == Step(product, end);
    ExprRestOnce(input, plus, 4);
    assert DriveFrom(input, Initial, 0) == Expr(input, a, 0);
    ProductLines();
    PrecedenceLines(product);
  }

  // ---- (a+b)*c and (a+b ----

  /** An expression `x op y` whose two operands are single identifiers or
      literals, `op` being `+` or `-`, followed by a token that continues neither
      the term nor the expression: two five-line terms around the operator leaf. */
  lemma SumExpr(input: string, x: Lookahead, op: Lookahead, y: Lookahead, next: Lookahead, ind: nat)
    requires Fits(input, x) && (x.token == Ident || x.token == IntLit) && NextLook(input, x) == op
    requires (op.token == AddOp || op.token == SubOp) && NextLook(input, op) == y
    requires (y.token == Ident || y.token == IntLit) && NextLook(input, y) == next
    requires next.token != MultOp && next.token != DivOp && next.token != AddOp && next.token != SubOp
    ensures Expr(input, x, ind) == Step(
      [Indented(ind, "[expr")] + IdTermLines(ind + 4, x.text) + ([OpLine(ind + 4, op.text)] + IdTermLines(ind + 4, y.text))
      + [Indented(ind, "]")], next)
  {
    IdTerm(input, x, ind + 4);
    IdTerm(input, y, ind + 4);
    ExprRestOnce(input, op, ind + 4);
  }

  /** An input starting with `(a+b` followed by neither a letter nor a digit is
      scanned as `(`, `a`, `+` and `b`. */
  lemma ParenSumTokens(input: string)
    requires 4 <= |input| && input[..4] == "(a+b"
    requires 4 == |input| || !IsWordChar(input[4])
    ensures NextLook(input, Initial) == Lookahead(LeftParen, "(", 1, 0)
    ensures NextLook(input, Lookahead(LeftParen, "(", 1, 0)) == Lookahead(Ident, "a", 2, 0)
    ensures NextLook(input, Lookahead(Ident, "a", 2, 0)) == Lookahead(AddOp, "+", 3, 0)
    ensures NextLook(input, Lookahead(AddOp, "+", 3, 0)) == Lookahead(Ident, "b", 4, 0)
  {
    assert input[0] == '(' && input[1] == 'a' && input[2] == '+' && input[3] == 'b' by {
      assert input[..4][0] == '(' && input[..4][1] == 'a' && input[..4][2] == '+' && input[..4][3] == 'b';
    }
    NextLookSingle(input, Initial);
    NextLookSingle(input, Lookahead(LeftParen, "(", 1, 0));
    NextLookSingle(input, Lookahead(Ident, "a", 2, 0));
    NextLookSingle(input, Lookahead(AddOp, "+", 3, 0));
  }

  /** `(a+b)*c` is scanned as `(`, `a`, `+`, `b`, `)`, `*`, `c` and end of input. */
  lemma GroupingTokens(input: string)
    requires input == "(a+b)*c"
    ensures NextLook(input, Initial) == Lookahead(LeftParen, "(", 1, 0)
    ensures NextLook(input, Lookahead(LeftParen, "(", 1, 0)) == Lookahead(Ident, "a", 2, 0)
    ensures NextLook(input, Lookahead(Ident, "a", 2, 0)) == Lookahead(AddOp, "+", 3, 0)
    ensures NextLook(input, Lookahead(AddOp, "+", 3, 0)) == Lookahead(Ident, "b", 4, 0)
    ensures NextLook(input, Lookahead(Ident, "b", 4, 0)) == Lookahead(RightParen, ")", 5, 0)
    ensures NextLook(input, Lookahead(RightParen, ")", 5, 0)) == Lookahead(MultOp, "*", 6, 0)
    ensures NextLook(input, Lookahead(MultOp, "*", 6, 0)) == Lookahead(Ident, "c", 7, 0)
    ensures NextLook(input, Lookahead(Ident, "c", 7, 0)) == Lookahead(Eof, "EOF", 7, 0)
  {
    ParenSumTokens(input);
    NextLookSingle(input, Lookahead(Ident, "b", 4, 0));
    NextLookSingle(input, Lookahead(RightParen, ")", 5, 0));
    NextLookSingle(input, Lookahead(MultOp, "*", 6, 0));
    NextLookAtEnd(input, Lookahead(Ident, "c", 7, 0));
  }

  /** `(a+b)*c`: the parenthesised sum is the first factor of the product, its
      expression nested between `[LEFT_PAREN]` and `[RIGHT_PAREN]`. */
  lemma GroupingTrace(input: string)
    requires input == "(a+b)*c"
    ensures Trace(input) ==
      [Indented(0, "[expr"),
       Indented(4, "[term"),
       Indented(8, "[factor"),
       Indented(12, "[LEFT_PAREN]")] +
      [Indented(12, "[expr"),
       Indented(16, "[term"),
       Indented(20, "[factor"), Indented(24, "[id [a]]"), Indented(20, "]"),
       Indented(16, "]"),
       Indented(16, "[+]"),
       Indented(16, "[term"),
       Indented(20, "[factor"), Indented(24, "[id [b]]"), Indented(20, "]"),
       Indented(16, "]"),
       Indented(12, "]")] +
      [Indented(12, "[RIGHT_PAREN]"),
       Indented(8, "]"),
       Indented(8, "[*]"),
       Indented(8, "[factor"), Indented(12, "[id [c]]"), Indented(8, "]"),
       Indented(4, "]"),
       Indented(0, "]")]
  {
    GroupingTokens(input);
    var open := Lookahead(LeftParen, "(", 1, 0);
    var close := Lookahead(RightParen, ")", 5, 0);
    var times := Lookahead(MultOp, "*", 6, 0);
    var c := Lookahead(Ident, "c", 7, 0);
    var end := Lookahead(Eof, "EOF", 7, 0);
    SumExpr(input, Lookahead(Ident, "a", 2, 0), Lookahead(AddOp, "+", 3, 0), Lookahead(Ident, "b", 4, 0), close, 12);
    var inner := Expr(input, Lookahead(Ident, "a", 2, 0), 12).trace;
    FactorParen(input, open, 8);
    IdFactorStep(input, c, 8);
    TermRestOnce(input, times, 8);
    assert ExprRest(input, end, 4) == Step([], end);
    assert DriveFrom(input, Initial, 0) == Expr(input, open, 0);
    InnerSumLines();
    GroupingLines(inner);
  }

  /** `(a+b` is scanned as `(`, `a`, `+`, `b` and end of input. */
  lemma MissingParenTokens(input: string)
    requires input == "(a+b"
    ensures NextLook(input, Initial) == Lookahead(LeftParen, "(", 1, 0)
    ensures NextLook(input, Lookahead(LeftParen, "(", 1, 0)) == Lookahead(Ident, "a", 2, 0)
    ensures NextLook(input, Lookahead(Ident, "a", 2, 0)) == Lookahead(AddOp, "+", 3, 0)
    ensures NextLook(input, Lookahead(AddOp, "+", 3, 0)) == Lookahead(Ident, "b", 4, 0)
    ensures NextLook(input, Lookahead(Ident, "b", 4, 0)) == Lookahead(Eof, "EOF", 4, 0)
  {
    ParenSumTokens(input);
    NextLookAtEnd(input, Lookahead(Ident, "b", 4, 0));
  }

  /** `(a+b`: the missing right parenthesis is reported once, at the margin,
      where `)` would have been, and then the factor, the term and the
      expression close in that order. */
  lemma MissingParenTrace(input: string)
    requires input == "(a+b"
    ensures Trace(input) ==
      [Indented(0, "[expr"),
       Indented(4, "[term"),
       Indented(8, "[factor"),
       Indented(12, "[LEFT_PAREN]")] +
      [Indented(12, "[expr"),
       Indented(16, "[term"),
       Indented(20, "[factor"), Indented(24, "[id [a]]"), Indented(20, "]"),
       Indented(16, "]"),
       Indented(16, "[+]"),
       Indented(16, "[term"),
       Indented(20, "[factor"), Indented(24, "[id [b]]"), Indented(20, "]"),
       Indented(16, "]"),
       Indented(12, "]")] +
      [MissingRightParen,
       Indented(8, "]"),
       Indented(4, "]"),
       Indented(0, "]")]
  {
    MissingParenTokens(input);
    var open := Lookahead(LeftParen, "(", 1, 0);
    var end := Lookahead(Eof, "EOF", 4, 0);
    SumExpr(input, Lookahead(Ident, "a", 2, 0), Lookahead(AddOp, "+", 3, 0), Lookahead(Ident, "b", 4, 0), end, 12);
    var inner := Expr(input, Lookahead(Ident, "a", 2, 0), 12).trace;
    FactorParen(input, open, 8);
    assert TermRest(input, end, 8) == Step([], end);
    assert ExprRest(input, end, 4) == Step([], end);
    assert DriveFrom(input, Initial, 0) == Expr(input, open, 0);
    InnerSumLines();
    MissingParenLines(inner, MissingRightParen);
  }

  // ---- 123+x ----

  /** `123+x` is scanned as the literal `123`, `+`, the identifier `x` and end of input. */
  lemma LiteralTokens(input: string)
    requires input == "123+x"
    ensures NextLook(input, Initial) == Lookahead(IntLit, "123", 3, 0)
    ensures NextLook(input, Lookahead(IntLit, "123", 3, 0)) == Lookahead(AddOp, "+", 4, 0)
    ensures NextLook(input, Lookahead(AddOp, "+", 4, 0)) == Lookahead(Ident, "x", 5, 0)
    ensures NextLook(input, Lookahead(Ident, "x", 5, 0)) == Lookahead(Eof, "EOF", 5, 0)
  {
    assert NextLook(input, Initial) == Lookahead(IntLit, "123", 3, 0) by {
      assert RunEnd(input, 3, Digits) == 3;
      assert RunEnd(input, 2, Digits) == 3;
      assert RunEnd(input, 1, Digits) == 3;
      ScanRun(input, 0, Digits);
      assert input[0..3] == "123";
      CStringWhole("123");
    }
    NextLookSingle(input, Lookahead(IntLit, "123", 3, 0));
    NextLookSingle(input, Lookahead(AddOp, "+", 4, 0));
    NextLookAtEnd(input, Lookahead(Ident, "x", 5, 0));
  }

  /** `123+x` is recognised as one expression: the sum of two single-factor terms. */
  lemma LiteralExpr(input: string)
    requires input == "123+x"
    ensures DriveFrom(input, Initial, 0) == Step(
      [Indented(0, "[expr")] + IdTermLines(4, "123") + ([OpLine(4, "+")] + IdTermLines(4, "x")) + [Indented(0, "]")],
      Lookahead(Eof, "EOF", 5, 0))
  {
    LiteralTokens(input);
    var n := Lookahead(IntLit, "123", 3, 0);
    SumExpr(input, n, Lookahead(AddOp, "+", 4, 0), Lookahead(Ident, "x", 5, 0), Lookahead(Eof, "EOF", 5, 0), 0);
    assert DriveFrom(input, Initial, 0) == Expr(input, n, 0);
  }

  /** `123+x`: the literal and the identifier are both written as `[id [...]]` leaves. */
  lemma LiteralTrace(input: string)
    requires input == "123+x"
    ensures Trace(input) ==
      [Indented(0, "[expr"),
       Indented(4, "[term"),
       Indented(8, "[factor"), Indented(12, "[id [123]]"), Indented(8, "]"),
       Indented(4, "]"),
       Indented(4, "[+]"),
       Indented(4, "[term"),
       Indented(8, "[factor"), Indented(12, "[id [x]]"), Indented(8, "]"),
       Indented(4, "]"),
       Indented(0, "]")]
  {
    LiteralExpr(input);
    LiteralLines();
  }

  // ---- a#b ----

  /** `a#b` is scanned as `a` and then `#`, whose token is EOF. */
  lemma UnknownCharTokens(input: string)
    requires input == "a#b"
    ensures NextLook(input, Initial) == Lookahead(Ident, "a", 1, 0)
    ensures NextLook(input, Lookahead(Ident, "a", 1, 0)) == Lookahead(Eof, "#", 2, 0)
  {
    NextLookSingle(input, Initial);
    NextLookSingle(input, Lookahead(Ident, "a", 1, 0));
  }

  /** `a` is scanned as `a` and then end of input. */
  lemma SingleTokens(input: string)
    requires |input| == 1 && input[0] == 'a'
    ensures NextLook(input, Initial) == Lookahead(Ident, "a", 1, 0)
    ensures NextLook(input, Lookahead(Ident, "a", 1, 0)) == Lookahead(Eof, "EOF", 1, 0)
  {
    NextLookSingle(input, Initial);
    NextLookAtEnd(input, Lookahead(Ident, "a", 1, 0));
  }

  /** A whole input whose first expression is the single identifier or literal
      `x`, followed by a token EOF, is traced as that one expression. */
  lemma SingleTrace(input: string, x: Lookahead)
    requires NextLook(input, Initial) == x && (x.token == Ident || x.token == IntLit)
    requires NextLook(input, x).token == Eof
    ensures DriveFrom(input, Initial, 0)
      == Step([Indented(0, "[expr")] + IdTermLines(4, x.text) + [] + [Indented(0, "]")], NextLook(input, x))
  {
    IdTerm(input, x, 4);
    assert ExprRest(input, NextLook(input, x), 4) == Step([], NextLook(input, x));
  }

  /** `#` is not a character the scanner knows: `lex` gives it the token EOF,
      so the driver stops after `a`, leaving `b` unread, and the trace of
      `a#b` is the trace of `a` alone. */
  lemma UnknownCharTrace(input: string)
    requires input == "a#b"
    ensures DriveFrom(input, Initial, 0).after == Lookahead(Eof, "#", 2, 0)
    ensures Trace(input) == Trace(input[..1])
    ensures Trace(input) ==
      [Indented(0, "[expr"),
       Indented(4, "[term"),
       Indented(8, "[factor"), Indented(12, "[id [a]]"), Indented(8, "]"),
       Indented(4, "]"),
       Indented(0, "]")]
  {
    var prefix := input[..1];
    UnknownCharTokens(input);
    SingleTokens(prefix);
    SingleTrace(input, Lookahead(Ident, "a", 1, 0));
    SingleTrace(prefix, Lookahead(Ident, "a", 1, 0));
    SingleLines();
  }
}
