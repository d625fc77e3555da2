/** What sits at each level of a rule's trace. The lines at the column just
    inside `expr` are its terms with a `+` or `-` leaf between each two, and
    the lines at the column just inside `term` are its factors with a `*` or
    `/` leaf between each two. With `Nesting` this fixes the precedence the
    trace shows: `*` and `/` group inside a term, `+` and `-` between terms. */
module Levels {
  import opened Lexicon
  import opened Scanning
  import opened Layout
  import opened Recognizer

  /** A lookahead as `lex` leaves it: `nextToken` and `lexeme` are set
      together, so the lexeme of an operator token is its own character. */
  predicate Lexed(st: Lookahead) {
    IsOperator(st.token) ==> st.text == [OperatorChar(st.token)]
  }

  /** Every `lex` leaves a lookahead whose operator token and lexeme agree. */
  lemma NextLookLexed(input: string, st: Lookahead)
    requires Fits(input, st)
    ensures Lexed(NextLook(input, st))
  {
    var j := RunEnd(input, st.pos, Blanks);
    if j < |input| && !IsWordChar(input[j]) {
      ScanPunctuation(input, st.pos);
      if IsOperatorChar(input[j]) {
        CStringWhole([input[j]]);
      }
    }
  }

  // ---- the lookahead a rule leaves behind is one `lex` left ----

  lemma {:induction false} ExprLexed(input: string, st: Lookahead, ind: nat)
    requires Fits(input, st) && Lexed(st)
    ensures Lexed(Expr(input, st, ind).after)
    decreases Measure(input, st), 2
  {
    var first := Term(input, st, ind + 4);
    TermLexed(input, st, ind + 4);
    ExprRestLexed(input, first.after, ind + 4);
  }

  lemma {:induction false} ExprRestLexed(input: string, st: Lookahead, ind: nat)
    requires Fits(input, st) && Lexed(st)
    ensures Lexed(ExprRest(input, st, ind).after)
    decreases Measure(input, st), 1
  {
    if st.token == AddOp || st.token == SubOp {
      NextLookLexed(input, st);
      var next := Term(input, NextLook(input, st), ind);
      TermLexed(input, NextLook(input, st), ind);
      ExprRestLexed(input, next.after, ind);
    }
  }

  lemma {:induction false} TermLexed(input: string, st: Lookahead, ind: nat)
    requires Fits(input, st) && Lexed(st)
    ensures Lexed(Term(input, st, ind).after)
    decreases Measure(input, st), 1
  {
    var first := Factor(input, st, ind + 4);
    FactorLexed(input, st, ind + 4);
    TermRestLexed(input, first.after, ind + 4);
  }

  lemma {:induction false} TermRestLexed(input: string, st: Lookahead, ind: nat)
    requires Fits(input, st) && Lexed(st)
    ensures Lexed(TermRest(input, st, ind).after)
    decreases Measure(input, st), 0
  {
    if st.token == MultOp || st.token == DivOp {
      NextLookLexed(input, st);
      var next := Factor(input, NextLook(input, st), ind);
      FactorLexed(input, NextLook(input, st), ind);
      TermRestLexed(input, next.after, ind);
    }
  }

  lemma {:induction false} FactorLexed(input: string, st: Lookahead, ind: nat)
    requires Fits(input, st) && Lexed(st)
    ensures Lexed(Factor(input, st, ind).after)
    decreases Measure(input, st), 0
  {
    if st.token == Ident || st.token == IntLit {
      NextLookLexed(input, st);
    } else if st.token == LeftParen {
      NextLookLexed(input, st);
      var e := Expr(input, NextLook(input, st), ind + 4);
      ExprLexed(input, NextLook(input, st), ind + 4);
      NextLookLexed(input, e.after);
    }
  }

  // ---- the lines at one column ----

  /** The lines of a trace that start at column `col`, in order. */
  function At(lines: seq<string>, col: nat): (r: seq<string>)
    ensures |r| <= |lines|
    ensures forall k :: 0 <= k < |r| ==> Lead(r[k]) == col
  {
    if lines == [] then []
    else (if Lead(lines[0]) == col then [lines[0]] else []) + At(lines[1..], col)
  }

  /** The lines at a column of two traces, one after the other. */
  lemma {:induction false} AtAppend(a: seq<string>, b: seq<string>, col: nat)
    ensures At(a + b, col) == At(a, col) + At(b, col)
    decreases |a|
  {
    if a == [] {
      assert a + b == b;
    } else {
      assert (a + b)[0] == a[0];
      assert (a + b)[1..] == a[1..] + b;
      AtAppend(a[1..], b, col);
    }
  }

  /** A single line at its own column. */
  lemma AtLine(n: nat, body: string, col: nat)
    requires |body| > 0 && body[0] != ' '
    ensures At([Indented(n, body)], col) == if n == col then [Indented(n, body)] else []
  {
    IndentedLead(n, body);
    assert [Indented(n, body)][1..] == [];
  }

  /** Every line sits at column `col` or to its right, or at the left margin. */
  predicate From(lines: seq<string>, col: nat) {
    forall k :: 0 <= k < |lines| ==> Lead(lines[k]) == 0 || col <= Lead(lines[k])
  }

  /** Lines that all sit right of column `c`, or at the margin, have none at `c`. */
  lemma {:induction false} AtBelow(lines: seq<string>, col: nat, c: nat)
    requires From(lines, col) && 0 < c < col
    ensures At(lines, c) == []
    decreases |lines|
  {
    if lines != [] {
      AtBelow(lines[1..], col, c);
    }
  }

  lemma FromJoin(a: seq<string>, b: seq<string>, col: nat)
    requires From(a, col) && From(b, col)
    ensures From(a + b, col)
  {
    forall k | 0 <= k < |a + b|
      ensures Lead((a + b)[k]) == 0 || col <= Lead((a + b)[k])
    {
      if k < |a| {
        assert (a + b)[k] == a[k];
      } else {
        assert (a + b)[k] == b[k - |a|];
      }
    }
  }

  /** A line at indentation `n`, or an error message at the margin. */
  lemma FromLine(n: nat, body: string, col: nat)
    requires |body| > 0 && body[0] != ' ' && col <= n
    ensures From([Indented(n, body)], col)
  {
    IndentedLead(n, body);
  }

  /** A rule's opening and closing lines at `ind` around lines at `ind` or deeper. */
  lemma FromRule(ind: nat, open: string, inner: seq<string>)
    requires |open| > 0 && open[0] != ' ' && From(inner, ind)
    ensures From([Indented(ind, open)] + inner + [Indented(ind, "]")], ind)
  {
    FromLine(ind, open, ind);
    FromLine(ind, "]", ind);
    FromJoin([Indented(ind, open)], inner, ind);
    FromJoin([Indented(ind, open)] + inner, [Indented(ind, "]")], ind);
  }

  /** The leaf `[op]` of an operator token. */
  lemma OpLead(ind: nat, text: string, col: nat)
    requires col <= ind
    ensures From([Indented(ind, "[" + text + "]")], col)
  {
    assert ("[" + text + "]")[0] == '[';
    FromLine(ind, "[" + text + "]", col);
  }

  // ---- every line of a rule sits at its indentation or deeper ----

  lemma {:induction false} ExprFrom(input: string, st: Lookahead, ind: nat)
    requires Fits(input, st)
    ensures From(Expr(input, st, ind).trace, ind)
    decreases Measure(input, st), 3
  {
    var first := Term(input, st, ind + 4);
    TermFrom(input, st, ind + 4);
    ExprRestFrom(input, first.after, ind + 4);
    var rest := ExprRest(input, first.after, ind + 4);
    FromJoin(first.trace, rest.trace, ind);
    FromRule(ind, "[expr", first.trace + rest.trace);
    Regroup3([Indented(ind, "[expr")], first.trace, rest.trace);
  }

  lemma {:induction false} ExprRestFrom(input: string, st: Lookahead, ind: nat)
    requires Fits(input, st)
    ensures From(ExprRest(input, st, ind).trace, ind)
    decreases Measure(input, st), 2
  {
    if st.token == AddOp || st.token == SubOp {
      var next := Term(input, NextLook(input, st), ind);
      TermFrom(input, NextLook(input, st), ind);
      ExprRestFrom(input, next.after, ind);
      var rest := ExprRest(input, next.after, ind);
      OpLead(ind, st.text, ind);
      FromJoin([Indented(ind, "[" + st.text + "]")], next.trace, ind);
      FromJoin([Indented(ind, "[" + st.text + "]")] + next.trace, rest.trace, ind);
    }
  }

  lemma {:induction false} TermFrom(input: string, st: Lookahead, ind: nat)
    requires Fits(input, st)
    ensures From(Term(input, st, ind).trace, ind)
    decreases Measure(input, st), 2
  {
    var first := Factor(input, st, ind + 4);
    FactorFrom(input, st, ind + 4);
    TermRestFrom(input, first.after, ind + 4);
    var rest := TermRest(input, first.after, ind + 4);
    FromJoin(first.trace, rest.trace, ind);
    FromRule(ind, "[term", first.trace + rest.trace);
    Regroup3([Indented(ind, "[term")], first.trace, rest.trace);
  }

  lemma {:induction false} TermRestFrom(input: string, st: Lookahead, ind: nat)
    requires Fits(input, st)
    ensures From(TermRest(input, st, ind).trace, ind)
    decreases Measure(input, st), 1
  {
    if st.token == MultOp || st.token == DivOp {
      var next := Factor(input, NextLook(input, st), ind);
      FactorFrom(input, NextLook(input, st), ind);
      TermRestFrom(input, next.after, ind);
      var rest := TermRest(input, next.after, ind);
      OpLead(ind, st.text, ind);
      FromJoin([Indented(ind, "[" + st.text + "]")], next.trace, ind);
      FromJoin([Indented(ind, "[" + st.text + "]")] + next.trace, rest.trace, ind);
    }
  }

  lemma {:induction false} FactorFrom(input: string, st: Lookahead, ind: nat)
    requires Fits(input, st)
    ensures From(Factor(input, st, ind).trace, ind)
    decreases Measure(input, st), 1
  {
    var body := FactorBody(input, st, ind);
    FromRule(ind, "[factor", body);
  }

  /** The lines of `factor` between its opening and closing lines sit
      deeper than `ind`, or are error messages at the margin. */
  lemma {:induction false} FactorBody(input: string, st: Lookahead, ind: nat) returns (body: seq<string>)
    requires Fits(input, st)
    ensures Factor(input, st, ind).trace == [Indented(ind, "[factor")] + body + [Indented(ind, "]")]
    ensures From(body, ind + 4)
    decreases Measure(input, st), 0
  {
    var inner := ind + 4;
    if st.token == Ident || st.token == IntLit {
      body := [Indented(inner, "[id [" + st.text + "]]")];
      assert ("[id [" + st.text + "]]")[0] == '[';
      FromLine(inner, "[id [" + st.text + "]]", inner);
    } else if st.token == LeftParen {
      var e := Expr(input, NextLook(input, st), inner);
      ExprFrom(input, NextLook(input, st), inner);
      var last := if e.after.token == RightParen then Indented(inner, "[RIGHT_PAREN]") else MissingRightParen;
      body := [Indented(inner, "[LEFT_PAREN]")] + e.trace + [last];
      FromLine(inner, "[LEFT_PAREN]", inner);
      if e.after.token == RightParen {
        FromLine(inner, "[RIGHT_PAREN]", inner);
      } else {
        MessageLine(MissingRightParen);
      }
      FromJoin([Indented(inner, "[LEFT_PAREN]")], e.trace, inner);
      FromJoin([Indented(inner, "[LEFT_PAREN]")] + e.trace, [last], inner);
    } else {
      body := [InvalidFactor];
      MessageLine(InvalidFactor);
    }
  }

  // ---- a rule's own column holds only its opening and closing lines ----

  lemma TermOwn(input: string, st: Lookahead, ind: nat)
    requires Fits(input, st) && 0 < ind
    ensures At(Term(input, st, ind).trace, ind) == [Indented(ind, "[term"), Indented(ind, "]")]
  {
    var first := Factor(input, st, ind + 4);
    var rest := TermRest(input, first.after, ind + 4);
    FactorFrom(input, st, ind + 4);
    TermRestFrom(input, first.after, ind + 4);
    FromJoin(first.trace, rest.trace, ind + 4);
    AtBelow(first.trace + rest.trace, ind + 4, ind);
    AtRule(ind, "[term", first.trace + rest.trace);
    Regroup3([Indented(ind, "[term")], first.trace, rest.trace);
  }

  lemma FactorOwn(input: string, st: Lookahead, ind: nat)
    requires Fits(input, st) && 0 < ind
    ensures At(Factor(input, st, ind).trace, ind) == [Indented(ind, "[factor"), Indented(ind, "]")]
  {
    var body := FactorBody(input, st, ind);
    AtBelow(body, ind + 4, ind);
    AtRule(ind, "[factor", body);
  }

  /** The lines at `ind` of a rule whose inner lines have none there. */
  lemma AtRule(ind: nat, open: string, inner: seq<string>)
    requires |open| > 0 && open[0] != ' ' && At(inner, ind) == []
    ensures At([Indented(ind, open)] + inner + [Indented(ind, "]")], ind) == [Indented(ind, open), Indented(ind, "]")]
  {
    AtLine(ind, open, ind);
    AtLine(ind, "]", ind);
    AtAppend([Indented(ind, open)] + inner, [Indented(ind, "]")], ind);
    AtAppend([Indented(ind, open)], inner, ind);
  }

  // ---- the levels ----

  /** Zero or more groups of an operator leaf `[op1]` or `[op2]` followed by
      the opening and closing lines `open` and `]` of a rule, all at `col`. */
  predicate Groups(lines: seq<string>, col: nat, open: string, op1: string, op2: string)
    decreases |lines|
  {
    lines == []
    || (&& |lines| >= 3
        && (lines[0] == Indented(col, op1) || lines[0] == Indented(col, op2))
        && lines[1] == Indented(col, open)
        && lines[2] == Indented(col, "]")
        && Groups(lines[3..], col, open, op1, op2))
  }

  /** One rule `open` ... `]`, then `Groups` of further ones. */
  predicate Chain(lines: seq<string>, col: nat, open: string, op1: string, op2: string) {
    && |lines| >= 2
    && lines[0] == Indented(col, open)
    && lines[1] == Indented(col, "]")
    && Groups(lines[2..], col, open, op1, op2)
  }

  /** One more group in front of `Groups`. */
  lemma GroupsCons(op: string, col: nat, open: string, rest: seq<string>, op1: string, op2: string)
    requires op == op1 || op == op2
    requires Groups(rest, col, open, op1, op2)
    ensures Groups([Indented(col, op)] + [Indented(col, open), Indented(col, "]")] + rest, col, open, op1, op2)
  {
    var lines := [Indented(col, op)] + [Indented(col, open), Indented(col, "]")] + rest;
    assert lines[3..] == rest;
  }

  /** The lines `expr`'s loop writes at its column: a `+` or `-` leaf and a term, each time round. */
  lemma {:induction false} ExprRestAt(input: string, st: Lookahead, ind: nat)
    requires Fits(input, st) && Lexed(st) && 0 < ind
    ensures Groups(At(ExprRest(input, st, ind).trace, ind), ind, "[term", "[+]", "[-]")
    decreases Measure(input, st)
  {
    if st.token == AddOp || st.token == SubOp {
      var op := "[" + st.text + "]";
      assert op == "[+]" || op == "[-]" by {
        if st.token == AddOp { assert st.text == "+"; assert "[" + "+" + "]" == "[+]"; }
        else { assert st.text == "-"; assert "[" + "-" + "]" == "[-]"; }
      }
      NextLookLexed(input, st);
      var next := Term(input, NextLook(input, st), ind);
      TermLexed(input, NextLook(input, st), ind);
      TermOwn(input, NextLook(input, st), ind);
      var rest := ExprRest(input, next.after, ind);
      ExprRestAt(input, next.after, ind);
      AtLine(ind, op, ind);
      AtAppend([Indented(ind, op)] + next.trace, rest.trace, ind);
      AtAppend([Indented(ind, op)], next.trace, ind);
      GroupsCons(op, ind, "[term", At(rest.trace, ind), "[+]", "[-]");
    }
  }

  /** The lines `term`'s loop writes at its column: a `*` or `/` leaf and a factor, each time round. */
  lemma {:induction false} TermRestAt(input: string, st: Lookahead, ind: nat)
    requires Fits(input, st) && Lexed(st) && 0 < ind
    ensures Groups(At(TermRest(input, st, ind).trace, ind), ind, "[factor", "[*]", "[/]")
    decreases Measure(input, st)
  {
    if st.token == MultOp || st.token == DivOp {
      var op := "[" + st.text + "]";
      assert op == "[*]" || op == "[/]" by {
        if st.token == MultOp { assert st.text == "*"; assert "[" + "*" + "]" == "[*]"; }
        else { assert st.text == "/"; assert "[" + "/" + "]" == "[/]"; }
      }
      NextLookLexed(input, st);
      var next := Factor(input, NextLook(input, st), ind);
      FactorLexed(input, NextLook(input, st), ind);
      FactorOwn(input, NextLook(input, st), ind);
      var rest := TermRest(input, next.after, ind);
      TermRestAt(input, next.after, ind);
      AtLine(ind, op, ind);
      AtAppend([Indented(ind, op)] + next.trace, rest.trace, ind);
      AtAppend([Indented(ind, op)], next.trace, ind);
      GroupsCons(op, ind, "[factor", At(rest.trace, ind), "[*]", "[/]");
    }
  }

  /** A rule's own opening and closing lines are not at a deeper column. */
  lemma AtInside(ind: nat, open: string, inner: seq<string>, c: nat)
    requires |open| > 0 && open[0] != ' ' && c != ind
    ensures At([Indented(ind, open)] + inner + [Indented(ind, "]")], c) == At(inner, c)
  {
    AtLine(ind, open, c);
    AtLine(ind, "]", c);
    AtAppend([Indented(ind, open)] + inner, [Indented(ind, "]")], c);
    AtAppend([Indented(ind, open)], inner, c);
  }

  /** A first rule in front of `Groups` makes a `Chain`. */
  lemma ChainCons(col: nat, open: string, rest: seq<string>, op1: string, op2: string)
    requires Groups(rest, col, open, op1, op2)
    ensures Chain([Indented(col, open), Indented(col, "]")] + rest, col, open, op1, op2)
  {
    assert ([Indented(col, open), Indented(col, "]")] + rest)[2..] == rest;
  }

  /** Just inside `expr`, four spaces in, stand its terms, one `[term` ... `]`
      pair each, with a `[+]` or `[-]` leaf between each two, and nothing else. */
  lemma ExprLevel(input: string, st: Lookahead, ind: nat)
    requires Fits(input, st) && Lexed(st)
    ensures Chain(At(Expr(input, st, ind).trace, ind + 4), ind + 4, "[term", "[+]", "[-]")
  {
    var c := ind + 4;
    var first := Term(input, st, c);
    var rest := ExprRest(input, first.after, c);
    TermOwn(input, st, c);
    TermLexed(input, st, c);
    ExprRestAt(input, first.after, c);
    AtInside(ind, "[expr", first.trace + rest.trace, c);
    Regroup3([Indented(ind, "[expr")], first.trace, rest.trace);
    AtAppend(first.trace, rest.trace, c);
    ChainCons(c, "[term", At(rest.trace, c), "[+]", "[-]");
  }

  /** Just inside `term`, four spaces in, stand its factors, one `[factor` ... `]`
      pair each, with a `[*]` or `[/]` leaf between each two, and nothing else. */
  lemma TermLevel(input: string, st: Lookahead, ind: nat)
    requires Fits(input, st) && Lexed(st)
    ensures Chain(At(Term(input, st, ind).trace, ind + 4), ind + 4, "[factor", "[*]", "[/]")
  {
    var c := ind + 4;
    var first := Factor(input, st, c);
    var rest := TermRest(input, first.after, c);
    FactorOwn(input, st, c);
    FactorLexed(input, st, c);
    TermRestAt(input, first.after, c);
    AtInside(ind, "[term", first.trace + rest.trace, c);
    Regroup3([Indented(ind, "[term")], first.trace, rest.trace);
    AtAppend(first.trace, rest.trace, c);
    ChainCons(c, "[factor", At(rest.trace, c), "[*]", "[/]");
  }

  /** Every round of the driver loop of `main`, which scans a token and then
      calls `expr`: the expression's terms and their `+`/`-` leaves stand at
      four spaces in, and the factors of its first term and their `*`/`/`
      leaves at eight. */
  lemma RoundLevels(input: string, st: Lookahead, ind: nat)
    requires Fits(input, st)
    ensures Chain(At(Expr(input, NextLook(input, st), ind).trace, ind + 4), ind + 4, "[term", "[+]", "[-]")
    ensures Chain(At(Term(input, NextLook(input, st), ind + 4).trace, ind + 8), ind + 8, "[factor", "[*]", "[/]")
  {
    var next := NextLook(input, st);
    NextLookLexed(input, st);
    ExprLevel(input, next, ind);
    TermLevel(input, next, ind + 4);
  }
}
