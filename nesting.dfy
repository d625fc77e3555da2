/** Every trace the recognizer writes is well nested: each rule opens and
    closes at its own indentation, four spaces per enclosing rule, leaves sit
    at the rule's inner indentation and error messages at the margin. */
module Nesting {
  import opened Lexicon
  import opened Scanning
  import opened Layout
  import opened Recognizer

  /** A leaf line at the inner indentation leaves the reader where it was. */
  lemma TokenLeaf(ind: nat, body: string, d: nat)
    requires |body| >= 2 && body[0] == '[' && body[|body| - 1] == ']'
    ensures Walk([Indented(ind, body)], Frame(ind, d)) == Some(Frame(ind, d))
  {
    LeafLine(ind, body);
    WalkOne(Indented(ind, body), Frame(ind, d));
  }

  // The three rules' traces, split into their opening line, what lies
  // between, and their closing line.

  lemma ExprShape(input: string, st: Lookahead, ind: nat)
    requires Fits(input, st)
    ensures var first := Term(input, st, ind + 4);
      var rest := ExprRest(input, first.after, ind + 4);
      Expr(input, st, ind).trace == [Indented(ind, "[expr")] + (first.trace + rest.trace) + [Indented(ind, "]")]
  {
    var first := Term(input, st, ind + 4);
    var rest := ExprRest(input, first.after, ind + 4);
    Regroup3([Indented(ind, "[expr")], first.trace, rest.trace);
  }

  lemma TermShape(input: string, st: Lookahead, ind: nat)
    requires Fits(input, st)
    ensures var first := Factor(input, st, ind + 4);
      var rest := TermRest(input, first.after, ind + 4);
      Term(input, st, ind).trace == [Indented(ind, "[term")] + (first.trace + rest.trace) + [Indented(ind, "]")]
  {
    var first := Factor(input, st, ind + 4);
    var rest := TermRest(input, first.after, ind + 4);
    Regroup3([Indented(ind, "[term")], first.trace, rest.trace);
  }

  lemma FactorShape(input: string, st: Lookahead, ind: nat) returns (body: seq<string>)
    requires Fits(input, st)
    ensures Factor(input, st, ind).trace == [Indented(ind, "[factor")] + body + [Indented(ind, "]")]
    ensures st.token == Ident || st.token == IntLit ==> body == [Indented(ind + 4, "[id [" + st.text + "]]")]
    ensures st.token == LeftParen ==>
      var e := Expr(input, NextLook(input, st), ind + 4);
      body == [Indented(ind + 4, "[LEFT_PAREN]")] + e.trace
              + [if e.after.token == RightParen then Indented(ind + 4, "[RIGHT_PAREN]") else MissingRightParen]
    ensures st.token != Ident && st.token != IntLit && st.token != LeftParen ==> body == [InvalidFactor]
  {
    var inner := ind + 4;
    if st.token == Ident || st.token == IntLit {
      body := [Indented(inner, "[id [" + st.text + "]]")];
    } else if st.token == LeftParen {
      var e := Expr(input, NextLook(input, st), inner);
      body := [Indented(inner, "[LEFT_PAREN]")] + e.trace
              + [if e.after.token == RightParen then Indented(inner, "[RIGHT_PAREN]") else MissingRightParen];
    } else {
      body := [InvalidFactor];
    }
  }

  lemma {:induction false} ExprNests(input: string, st: Lookahead, ind: nat, d: nat)
    requires Fits(input, st)
    ensures Walk(Expr(input, st, ind).trace, Frame(ind, d)) == Some(Frame(ind, d))
    decreases Measure(input, st), 2
  {
    var first := Term(input, st, ind + 4);
    var rest := ExprRest(input, first.after, ind + 4);
    TermNests(input, st, ind + 4, d + 1);
    ExprRestNests(input, first.after, ind + 4, d + 1);
    WalkAppend(first.trace, rest.trace, Frame(ind + 4, d + 1));
    RuleNests(ind, "[expr", first.trace + rest.trace, d);
    ExprShape(input, st, ind);
  }

  lemma {:induction false} ExprRestNests(input: string, st: Lookahead, ind: nat, d: nat)
    requires Fits(input, st)
    ensures Walk(ExprRest(input, st, ind).trace, Frame(ind, d)) == Some(Frame(ind, d))
    decreases Measure(input, st), 1
  {
    if st.token == AddOp || st.token == SubOp {
      var next := Term(input, NextLook(input, st), ind);
      var rest := ExprRest(input, next.after, ind);
      var leaf := Indented(ind, "[" + st.text + "]");
      assert ("[" + st.text + "]")[0] == '[';
      TermNests(input, NextLook(input, st), ind, d);
      ExprRestNests(input, next.after, ind, d);
      TokenLeaf(ind, "[" + st.text + "]", d);
      WalkAppend([leaf] + next.trace, rest.trace, Frame(ind, d));
      WalkAppend([leaf], next.trace, Frame(ind, d));
    } else {
      assert ExprRest(input, st, ind).trace == [];
    }
  }

  lemma {:induction false} TermNests(input: string, st: Lookahead, ind: nat, d: nat)
    requires Fits(input, st)
    ensures Walk(Term(input, st, ind).trace, Frame(ind, d)) == Some(Frame(ind, d))
    decreases Measure(input, st), 1
  {
    var first := Factor(input, st, ind + 4);
    var rest := TermRest(input, first.after, ind + 4);
    FactorNests(input, st, ind + 4, d + 1);
    TermRestNests(input, first.after, ind + 4, d + 1);
    WalkAppend(first.trace, rest.trace, Frame(ind + 4, d + 1));
    RuleNests(ind, "[term", first.trace + rest.trace, d);
    TermShape(input, st, ind);
  }

  lemma {:induction false} TermRestNests(input: string, st: Lookahead, ind: nat, d: nat)
    requires Fits(input, st)
    ensures Walk(TermRest(input, st, ind).trace, Frame(ind, d)) == Some(Frame(ind, d))
    decreases Measure(input, st), 0
  {
    if st.token == MultOp || st.token == DivOp {
      var next := Factor(input, NextLook(input, st), ind);
      var rest := TermRest(input, next.after, ind);
      var leaf := Indented(ind, "[" + st.text + "]");
      assert ("[" + st.text + "]")[0] == '[';
      FactorNests(input, NextLook(input, st), ind, d);
      TermRestNests(input, next.after, ind, d);
      TokenLeaf(ind, "[" + st.text + "]", d);
      WalkAppend([leaf] + next.trace, rest.trace, Frame(ind, d));
      WalkAppend([leaf], next.trace, Frame(ind, d));
    } else {
      assert TermRest(input, st, ind).trace == [];
    }
  }

  /** A parenthesised expression, closed by `)` or by the error message,
      between the factor's opening and closing lines. */
  lemma ParenNests(inner: nat, e: seq<string>, closed: bool, d: nat)
    requires Walk(e, Frame(inner, d)) == Some(Frame(inner, d))
    ensures var last := if closed then Indented(inner, "[RIGHT_PAREN]") else MissingRightParen;
      Walk([Indented(inner, "[LEFT_PAREN]")] + e + [last], Frame(inner, d)) == Some(Frame(inner, d))
  {
    var f := Frame(inner, d);
    var lp := Indented(inner, "[LEFT_PAREN]");
    var last := if closed then Indented(inner, "[RIGHT_PAREN]") else MissingRightParen;
    TokenLeaf(inner, "[LEFT_PAREN]", d);
    WalkAppend([lp], e, f);
    if closed {
      TokenLeaf(inner, "[RIGHT_PAREN]", d);
    } else {
      MessageLine(MissingRightParen);
      WalkOne(last, f);
    }
    WalkAppend([lp] + e, [last], f);
  }

  lemma {:induction false} FactorNests(input: string, st: Lookahead, ind: nat, d: nat)
    requires Fits(input, st)
    ensures Walk(Factor(input, st, ind).trace, Frame(ind, d)) == Some(Frame(ind, d))
    decreases Measure(input, st), 0
  {
    var inner := ind + 4;
    var f := Frame(inner, d + 1);
    var body := FactorShape(input, st, ind);
    if st.token == Ident || st.token == IntLit {
      assert ("[id [" + st.text + "]]")[0] == '[';
      TokenLeaf(inner, "[id [" + st.text + "]]", d + 1);
    } else if st.token == LeftParen {
      var e := Expr(input, NextLook(input, st), inner);
      ExprNests(input, NextLook(input, st), inner, d + 1);
      ParenNests(inner, e.trace, e.after.token == RightParen, d + 1);
    } else {
      MessageLine(InvalidFactor);
      WalkOne(InvalidFactor, f);
    }
    RuleNests(ind, "[factor", body, d);
  }

  /** The driver's trace is a sequence of well-nested expressions. */
  lemma {:induction false} DriveNests(input: string, st: Lookahead, ind: nat, d: nat)
    requires Fits(input, st)
    ensures Walk(DriveFrom(input, st, ind).trace, Frame(ind, d)) == Some(Frame(ind, d))
    decreases |input| - st.pos
  {
    var e := Expr(input, NextLook(input, st), ind);
    ExprNests(input, NextLook(input, st), ind, d);
    if e.after.token != Eof {
      var rest := DriveFrom(input, e.after, ind);
      DriveNests(input, e.after, ind, d);
      WalkAppend(e.trace, rest.trace, Frame(ind, d));
    }
  }

  /** Whatever the input, the program's trace is well nested from the margin:
      brackets balance and every line is indented four spaces per open rule. */
  lemma TraceWellNested(input: string)
    ensures WellNested(Trace(input), 0)
  {
    DriveNests(input, Initial, 0, 0);
  }
}
