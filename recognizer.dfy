/** The recursive-descent recognizer for
      <expr>   -> <term> {(+ | -) <term>}
      <term>   -> <factor> {(* | /) <factor>}
      <factor> -> id | int_constant | ( <expr> )
    stated as functions from the lookahead and the indentation to the lines
    of trace a rule writes and the lookahead it leaves behind. */
module Recognizer {
  import opened Lexicon
  import opened Scanning
  import opened Layout

  const InvalidFactor: string := "Error - invalid factor"
  const MissingRightParen: string := "Error - missing right parenthesis"

  /** What a rule writes and where it leaves the scanner. */
  datatype Step = Step(trace: seq<string>, after: Lookahead)

  /** `expr`: one term, then further terms while the lookahead is `+` or `-`.
      On return the lookahead is neither. */
  function Expr(input: string, st: Lookahead, ind: nat): (r: Step)
    requires Fits(input, st)
    ensures Fits(input, r.after) && st.pos <= r.after.pos
    ensures Measure(input, r.after) <= Measure(input, st)
    ensures st.token == Eof ==> r.after == st
    ensures r.after.token != AddOp && r.after.token != SubOp
    decreases Measure(input, st), 2
  {
    var first := Term(input, st, ind + 4);
    var rest := ExprRest(input, first.after, ind + 4);
    Step([Indented(ind, "[expr")] + first.trace + rest.trace + [Indented(ind, "]")], rest.after)
  }

  /** The loop of `expr`, run at the inner indentation `ind`. */
  function ExprRest(input: string, st: Lookahead, ind: nat): (r: Step)
    requires Fits(input, st)
    ensures Fits(input, r.after) && st.pos <= r.after.pos
    ensures Measure(input, r.after) <= Measure(input, st)
    ensures st.token == Eof ==> r.after == st
    ensures r.after.token != AddOp && r.after.token != SubOp
    decreases Measure(input, st), 1
  {
    if st.token == AddOp || st.token == SubOp then
      var next := Term(input, NextLook(input, st), ind);
      var rest := ExprRest(input, next.after, ind);
      Step([Indented(ind, "[" + st.text + "]")] + next.trace + rest.trace, rest.after)
    else
      Step([], st)
  }

  /** `term`: one factor, then further factors while the lookahead is `*` or `/`.
      On return the lookahead is neither. */
  function Term(input: string, st: Lookahead, ind: nat): (r: Step)
    requires Fits(input, st)
    ensures Fits(input, r.after) && st.pos <= r.after.pos
    ensures Measure(input, r.after) <= Measure(input, st)
    ensures st.token == Eof ==> r.after == st
    ensures r.after.token != MultOp && r.after.token != DivOp
    decreases Measure(input, st), 1
  {
    var first := Factor(input, st, ind + 4);
    var rest := TermRest(input, first.after, ind + 4);
    Step([Indented(ind, "[term")] + first.trace + rest.trace + [Indented(ind, "]")], rest.after)
  }

  /** The loop of `term`, run at the inner indentation `ind`. */
  function TermRest(input: string, st: Lookahead, ind: nat): (r: Step)
    requires Fits(input, st)
    ensures Fits(input, r.after) && st.pos <= r.after.pos
    ensures Measure(input, r.after) <= Measure(input, st)
    ensures st.token == Eof ==> r.after == st
    ensures r.after.token != MultOp && r.after.token != DivOp
    decreases Measure(input, st), 0
  {
    if st.token == MultOp || st.token == DivOp then
      var next := Factor(input, NextLook(input, st), ind);
      var rest := TermRest(input, next.after, ind);
      Step([Indented(ind, "[" + st.text + "]")] + next.trace + rest.trace, rest.after)
    else
      Step([], st)
  }

  /** `factor`: an identifier or literal, or a parenthesised expression.
      Its two error branches report and leave the lookahead where it is. */
  function Factor(input: string, st: Lookahead, ind: nat): (r: Step)
    requires Fits(input, st)
    ensures Fits(input, r.after) && st.pos <= r.after.pos
    ensures Measure(input, r.after) <= Measure(input, st)
    ensures st.token != Ident && st.token != IntLit && st.token != LeftParen ==> r.after == st
    decreases Measure(input, st), 0
  {
    var inner := ind + 4;
    var (body, after) :=
      if st.token == Ident || st.token == IntLit then
        ([Indented(inner, "[id [" + st.text + "]]")], NextLook(input, st))
      else if st.token == LeftParen then
        var e := Expr(input, NextLook(input, st), inner);
        if e.after.token == RightParen then
          ([Indented(inner, "[LEFT_PAREN]")] + e.trace + [Indented(inner, "[RIGHT_PAREN]")], NextLook(input, e.after))
        else
          ([Indented(inner, "[LEFT_PAREN]")] + e.trace + [MissingRightParen], e.after)
      else
        ([InvalidFactor], st);
    Step([Indented(ind, "[factor")] + body + [Indented(ind, "]")], after)
  }

  // `factor`'s three branches, each as the lines it writes one after another.

  lemma FactorId(input: string, st: Lookahead, ind: nat)
    requires Fits(input, st) && (st.token == Ident || st.token == IntLit)
    ensures Factor(input, st, ind).after == NextLook(input, st)
    ensures Factor(input, st, ind).trace
      == [Indented(ind, "[factor")] + [Indented(ind + 4, "[id [" + st.text + "]]")] + [Indented(ind, "]")]
  {
  }

  lemma FactorParen(input: string, st: Lookahead, ind: nat)
    requires Fits(input, st) && st.token == LeftParen
    ensures var e := Expr(input, NextLook(input, st), ind + 4);
      var open := [Indented(ind, "[factor")];
      var lp := [Indented(ind + 4, "[LEFT_PAREN]")];
      if e.after.token == RightParen then
        && Factor(input, st, ind).after == NextLook(input, e.after)
        && Factor(input, st, ind).trace == open + (lp + e.trace + [Indented(ind + 4, "[RIGHT_PAREN]")]) + [Indented(ind, "]")]
      else
        && Factor(input, st, ind).after == e.after
        && Factor(input, st, ind).trace == open + (lp + e.trace + [MissingRightParen]) + [Indented(ind, "]")]
  {
  }

  lemma FactorInvalid(input: string, st: Lookahead, ind: nat)
    requires Fits(input, st) && st.token != Ident && st.token != IntLit && st.token != LeftParen
    ensures Factor(input, st, ind).after == st
    ensures Factor(input, st, ind).trace == [Indented(ind, "[factor")] + [InvalidFactor] + [Indented(ind, "]")]
  {
  }

  /** The driver loop of `main`: scan a token, recognise an expression, and
      repeat until the lookahead is EOF. It stops only on EOF. */
  function DriveFrom(input: string, st: Lookahead, ind: nat): (r: Step)
    requires Fits(input, st)
    ensures Fits(input, r.after) && st.pos <= r.after.pos
    ensures r.after.token == Eof
    decreases |input| - st.pos
  {
    var e := Expr(input, NextLook(input, st), ind);
    if e.after.token == Eof then
      e
    else
      var rest := DriveFrom(input, e.after, ind);
      Step(e.trace + rest.trace, rest.after)
  }

  /** The loop of `main` as it runs: while the lookahead is not EOF, scan a
      token and recognise an expression, appending its lines to `out`. */
  function DriveLoop(input: string, st: Lookahead, ind: nat, out: seq<string>): (r: Step)
    requires Fits(input, st)
    ensures r.after.token == Eof
    decreases Measure(input, st)
  {
    if st.token == Eof then
      Step(out, st)
    else
      var e := Expr(input, NextLook(input, st), ind);
      DriveLoop(input, e.after, ind, out + e.trace)
  }

  /** One round of the loop followed by the rest of it writes `out` followed
      by what `DriveFrom` writes, and stops where `DriveFrom` stops. */
  lemma {:induction false} DriveLoopFrom(input: string, st: Lookahead, ind: nat, out: seq<string>)
    requires Fits(input, st)
    ensures var e := Expr(input, NextLook(input, st), ind);
      DriveLoop(input, e.after, ind, out + e.trace)
        == Step(out + DriveFrom(input, st, ind).trace, DriveFrom(input, st, ind).after)
    decreases |input| - st.pos
  {
    var e := Expr(input, NextLook(input, st), ind);
    if e.after.token != Eof {
      var rest := DriveFrom(input, e.after, ind);
      DriveLoopFrom(input, e.after, ind, out + e.trace);
      Regroup3(out, e.trace, rest.trace);
    }
  }

  /** The lookahead before the first `lex`: no token yet (EOF stands in for
      the zero-initialised global), an empty buffer, the cursor on the first character. */
  const Initial: Lookahead := Lookahead(Eof, "", 0, 0)

  /** The whole trace the program writes for an input. */
  function Trace(input: string): seq<string> {
    DriveFrom(input, Initial, 0).trace
  }

  /** At end of input `term` writes its factor's error report and consumes nothing. */
  lemma EofTerm(input: string, st: Lookahead, ind: nat)
    requires Fits(input, st) && st.token == Eof
    ensures Term(input, st, ind) == Step([Indented(ind, "[term"), Indented(ind + 4, "[factor"), InvalidFactor,
                                          Indented(ind + 4, "]"), Indented(ind, "]")], st)
  {
    FactorInvalid(input, st, ind + 4);
    var f := Factor(input, st, ind + 4);
    assert f.trace == [Indented(ind + 4, "[factor"), InvalidFactor, Indented(ind + 4, "]")];
    assert TermRest(input, st, ind + 4) == Step([], st);
  }

  /** At end of input `expr` writes the seven lines of an invalid factor
      inside a term inside an expression, and consumes nothing. */
  lemma EofExpr(input: string, st: Lookahead, ind: nat)
    requires Fits(input, st) && st.token == Eof
    ensures Expr(input, st, ind) == Step([Indented(ind, "[expr"), Indented(ind + 4, "[term"), Indented(ind + 8, "[factor"),
                                          InvalidFactor, Indented(ind + 8, "]"), Indented(ind + 4, "]"), Indented(ind, "]")], st)
  {
    EofTerm(input, st, ind + 4);
    assert ExprRest(input, st, ind + 4) == Step([], st);
  }

  /** On an input holding nothing but white space the driver still calls
      `expr` once, which reports an invalid factor. */
  lemma BlankInputTrace(input: string)
    requires AtEnd(input, 0)
    ensures Trace(input) == [Indented(0, "[expr"), Indented(4, "[term"), Indented(8, "[factor"),
                             InvalidFactor, Indented(8, "]"), Indented(4, "]"), Indented(0, "]")]
  {
    NextLookAtEnd(input, Initial);
    var st := NextLook(input, Initial);
    EofExpr(input, st, 0);
    assert DriveFrom(input, Initial, 0) == Expr(input, st, 0);
  }
}
