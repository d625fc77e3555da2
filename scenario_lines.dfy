/** The trace lines of a few small inputs, grouped as the rules write them
    and listed one per line. */
module ScenarioLines {
  import opened Layout

  /** The three lines of a factor that is an identifier or a literal. */
  function IdFactor(ind: nat, text: string): seq<string> {
    [Indented(ind, "[factor"), Indented(ind + 4, "[id [" + text + "]]"), Indented(ind, "]")]
  }

  /** The line an operator leaf is written as. */
  function OpLine(ind: nat, text: string): string {
    Indented(ind, "[" + text + "]")
  }

  /** The five lines of a term made of one identifier or literal. */
  function IdTermLines(ind: nat, text: string): seq<string> {
    [Indented(ind, "[term")] + IdFactor(ind + 4, text) + [Indented(ind, "]")]
  }

  /** The lines of `a+e` around the lines `term` of the term `e`, one after another. */
  lemma PrecedenceLines(term: seq<string>)
    ensures [Indented(0, "[expr")] + IdTermLines(4, "a") + ([OpLine(4, "+")] + term) + [Indented(0, "]")]
      == [Indented(0, "[expr"),
          Indented(4, "[term"),
          Indented(8, "[factor"), Indented(12, "[id [a]]"), Indented(8, "]"),
          Indented(4, "]"),
          Indented(4, "[+]")]
         + term
         + [Indented(0, "]")]
  {
    assert "[id [" + "a" + "]]" == "[id [a]]";
    assert "[" + "+" + "]" == "[+]";
  }

  /** The product `b*c` as a term at indentation 4, one line after another. */
  lemma ProductLines()
    ensures [Indented(4, "[term")] + IdFactor(8, "b") + ([OpLine(8, "*")] + IdFactor(8, "c")) + [Indented(4, "]")]
      == [Indented(4, "[term"),
          Indented(8, "[factor"), Indented(12, "[id [b]]"), Indented(8, "]"),
          Indented(8, "[*]"),
          Indented(8, "[factor"), Indented(12, "[id [c]]"), Indented(8, "]"),
          Indented(4, "]")]
  {
    assert "[id [" + "b" + "]]" == "[id [b]]";
    assert "[id [" + "c" + "]]" == "[id [c]]";
    assert "[" + "*" + "]" == "[*]";
  }

  /** The sum `a+b` as an expression at indentation 12, one line after another. */
  lemma InnerSumLines()
    ensures [Indented(12, "[expr")] + IdTermLines(16, "a") + ([OpLine(16, "+")] + IdTermLines(16, "b")) + [Indented(12, "]")]
      == [Indented(12, "[expr"),
          Indented(16, "[term"),
          Indented(20, "[factor"), Indented(24, "[id [a]]"), Indented(20, "]"),
          Indented(16, "]"),
          Indented(16, "[+]"),
          Indented(16, "[term"),
          Indented(20, "[factor"), Indented(24, "[id [b]]"), Indented(20, "]"),
          Indented(16, "]"),
          Indented(12, "]")]
  {
    assert "[id [" + "a" + "]]" == "[id [a]]";
    assert "[id [" + "b" + "]]" == "[id [b]]";
    assert "[" + "+" + "]" == "[+]";
  }

  /** The lines of `(e)*c` around the lines `inner` of `e`, one after another. */
  lemma GroupingLines(inner: seq<string>)
    ensures [Indented(0, "[expr")]
              + ([Indented(4, "[term")]
                 + ([Indented(8, "[factor")] + ([Indented(12, "[LEFT_PAREN]")] + inner + [Indented(12, "[RIGHT_PAREN]")])
                    + [Indented(8, "]")])
                 + ([OpLine(8, "*")] + IdFactor(8, "c"))
                 + [Indented(4, "]")])
              + [] + [Indented(0, "]")]
      == [Indented(0, "[expr"),
          Indented(4, "[term"),
          Indented(8, "[factor"),
          Indented(12, "[LEFT_PAREN]")]
         + inner
         + [Indented(12, "[RIGHT_PAREN]"),
            Indented(8, "]"),
            Indented(8, "[*]"),
            Indented(8, "[factor"), Indented(12, "[id [c]]"), Indented(8, "]"),
            Indented(4, "]"),
            Indented(0, "]")]
  {
    assert "[id [" + "c" + "]]" == "[id [c]]";
    assert "[" + "*" + "]" == "[*]";
  }

  /** The lines of `(e` around the lines `inner` of `e`, one after another. */
  lemma MissingParenLines(inner: seq<string>, message: string)
    ensures [Indented(0, "[expr")]
              + ([Indented(4, "[term")]
                 + ([Indented(8, "[factor")] + ([Indented(12, "[LEFT_PAREN]")] + inner + [message]) + [Indented(8, "]")])
                 + [] + [Indented(4, "]")])
              + [] + [Indented(0, "]")]
      == [Indented(0, "[expr"),
          Indented(4, "[term"),
          Indented(8, "[factor"),
          Indented(12, "[LEFT_PAREN]")]
         + inner
         + [message,
            Indented(8, "]"),
            Indented(4, "]"),
            Indented(0, "]")]
  {
  }

  /** `123+x`, one line after another. */
  lemma LiteralLines()
    ensures [Indented(0, "[expr")] + IdTermLines(4, "123") + ([OpLine(4, "+")] + IdTermLines(4, "x")) + [Indented(0, "]")]
      == [Indented(0, "[expr"),
          Indented(4, "[term"),
          Indented(8, "[factor"), Indented(12, "[id [123]]"), Indented(8, "]"),
          Indented(4, "]"),
          Indented(4, "[+]"),
          Indented(4, "[term"),
          Indented(8, "[factor"), Indented(12, "[id [x]]"), Indented(8, "]"),
          Indented(4, "]"),
          Indented(0, "]")]
  {
    assert "[id [" + "123" + "]]" == "[id [123]]";
    assert "[id [" + "x" + "]]" == "[id [x]]";
    assert "[" + "+" + "]" == "[+]";
  }

  /** A single identifier `a`, one line after another. */
  lemma SingleLines()
    ensures [Indented(0, "[expr")] + IdTermLines(4, "a") + [] + [Indented(0, "]")]
      == [Indented(0, "[expr"),
          Indented(4, "[term"),
          Indented(8, "[factor"), Indented(12, "[id [a]]"), Indented(8, "]"),
          Indented(4, "]"),
          Indented(0, "]")]
  {
    assert "[id [" + "a" + "]]" == "[id [a]]";
  }
}
