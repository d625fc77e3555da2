/** What one call of `lex` does, stated on the input as a sequence: the
    token it classifies, the characters left in the lexeme buffer, where
    the lookahead ends up and how many "lexeme is too long" reports it makes. */
module Scanning {
  import opened Lexicon

  /** `addChar` stores a character only while `lexLen <= 98`, so a lexeme
      keeps at most 99 characters, the 100th cell holding the NUL. */
  const MaxLexeme: nat := 99

  /** The three kinds of run the scanner reads: white space (`getNonBlank`),
      the letters and digits of an identifier, and the digits of a literal. */
  datatype Run = Blanks | Word | Digits

  predicate InRun(run: Run, c: char) {
    match run
    case Blanks => IsSpace(c)
    case Word => IsWordChar(c)
    case Digits => IsDigit(c)
  }

  /** Where the loops of `getNonBlank` and `lex` stop when they start at `i`:
      the first index at or after `i` whose character is not in the run, or
      the end of the input. */
  function RunEnd(input: string, i: nat, run: Run): (j: nat)
    requires i <= |input|
    ensures i <= j <= |input|
    decreases |input| - i
  {
    if i < |input| && InRun(run, input[i]) then RunEnd(input, i + 1, run) else i
  }

  /** The run from `i` to `RunEnd` is maximal: every character in it belongs
      to the run, and the character that stops it does not. */
  lemma {:induction false} RunEndMaximal(input: string, i: nat, run: Run)
    requires i <= |input|
    ensures forall k :: i <= k < RunEnd(input, i, run) ==> InRun(run, input[k])
    ensures RunEnd(input, i, run) == |input| || !InRun(run, input[RunEnd(input, i, run)])
    decreases |input| - i
  {
    if i < |input| && InRun(run, input[i]) {
      RunEndMaximal(input, i + 1, run);
    }
  }

  /** How many characters of a run of `n` the buffer keeps. */
  function Stored(n: nat): (k: nat)
    ensures k <= MaxLexeme && k <= n
  {
    if n < MaxLexeme then n else MaxLexeme
  }

  /** The part of a run that the bounded buffer keeps. */
  function Kept(run: string): (r: string)
    ensures |r| == Stored(|run|)
    ensures |run| <= MaxLexeme ==> r == run
  {
    if |run| <= MaxLexeme then run else run[..MaxLexeme]
  }

  /** How many `addChar` calls on a run of `n` characters find the buffer full. */
  function Dropped(n: nat): (d: nat)
    ensures n <= MaxLexeme ==> d == 0
    ensures n > MaxLexeme ==> MaxLexeme + d == n
  {
    if n <= MaxLexeme then 0 else n - MaxLexeme
  }

  /** Appending one character to a run: the buffer takes it while it has
      room, and otherwise one more report is made. */
  lemma KeptExtend(run: string, c: char)
    ensures |run| < MaxLexeme ==> Kept(run + [c]) == Kept(run) + [c]
    ensures |run| >= MaxLexeme ==> Kept(run + [c]) == Kept(run)
    ensures Dropped(|run| + 1) == Dropped(|run|) + (if |run| < MaxLexeme then 0 else 1)
  {
  }

  /** True when only blanks are left from index `i` on: `lex` then reports end of input. */
  predicate AtEnd(input: string, i: nat)
    requires i <= |input|
  {
    RunEnd(input, i, Blanks) == |input|
  }

  /** The outcome of one `lex` call: the token, the characters stored in the
      buffer (`"EOF"` at end of input), the index of the new lookahead and
      the number of overflow reports. */
  datatype Scanned = Scanned(token: Token, text: string, next: nat, dropped: nat)

  /** One call of `lex` with the lookahead at index `i`. */
  function Scan(input: string, i: nat): (s: Scanned)
    requires i <= |input|
    ensures i <= s.next <= |input|
    ensures |s.text| <= MaxLexeme
    ensures AtEnd(input, i) <==> s.next == |input| && s.token == Eof && s.text == "EOF"
  {
    var j := RunEnd(input, i, Blanks);
    if j == |input| then
      Scanned(Eof, "EOF", j, 0)
    else if IsAlpha(input[j]) then
      var e := RunEnd(input, j + 1, Word);
      Scanned(Ident, Kept(input[j..e]), e, Dropped(e - j))
    else if IsDigit(input[j]) then
      var e := RunEnd(input, j + 1, Digits);
      Scanned(IntLit, Kept(input[j..e]), e, Dropped(e - j))
    else
      Scanned(LookupToken(input[j]), [input[j]], j + 1, 0)
  }

  /** `lex` chooses its case by the class of the first non-blank character:
      each case of its switch gives the outcome `Scan` describes. */
  lemma ScanByClass(input: string, i: nat)
    requires i <= |input|
    ensures var j := RunEnd(input, i, Blanks); var s := Scan(input, i);
      match ClassAt(input, j)
      case EndOfInput => s == Scanned(Eof, "EOF", j, 0)
      case Letter => var e := RunEnd(input, j + 1, Word);
        s == Scanned(Ident, Kept(input[j..e]), e, Dropped(e - j))
      case Digit => var e := RunEnd(input, j + 1, Digits);
        s == Scanned(IntLit, Kept(input[j..e]), e, Dropped(e - j))
      case Unknown => s == Scanned(LookupToken(input[j]), [input[j]], j + 1, 0)
  {
  }

  /** The token a run of letters and digits or of digits is classified as. */
  function RunToken(run: Run): Token {
    if run == Word then Ident else IntLit
  }

  /** From a letter (or a digit), `lex` keeps the run of letters and digits
      (or of digits) that starts there. */
  lemma ScanRun(input: string, i: nat, run: Run)
    requires i < |input| && run != Blanks
    requires if run == Word then IsAlpha(input[i]) else IsDigit(input[i])
    ensures var e := RunEnd(input, i + 1, run);
      Scan(input, i) == Scanned(RunToken(run), Kept(input[i..e]), e, Dropped(e - i))
  {
    assert RunEnd(input, i, Blanks) == i;
  }

  /** Scanning from the first non-blank character gives the same outcome as
      scanning from before the blanks. */
  lemma ScanAfterBlanks(input: string, i: nat)
    requires i <= |input|
    ensures Scan(input, RunEnd(input, i, Blanks)) == Scan(input, i)
    ensures AtEnd(input, RunEnd(input, i, Blanks)) == AtEnd(input, i)
  {
    RunEndMaximal(input, i, Blanks);
  }

  /** Leading blanks are skipped, and at end of input nothing else is consumed;
      otherwise at least one non-blank character is consumed. */
  lemma ScanProgress(input: string, i: nat)
    requires i <= |input|
    ensures AtEnd(input, i) ==> Scan(input, i) == Scanned(Eof, "EOF", |input|, 0)
    ensures !AtEnd(input, i) ==> RunEnd(input, i, Blanks) < Scan(input, i).next
    ensures forall k :: i <= k < RunEnd(input, i, Blanks) ==> IsSpace(input[k])
  {
    RunEndMaximal(input, i, Blanks);
  }

  /** On a letter, `lex` gives IDENT whose lexeme is the maximal run of letters
      and digits (its first 99 characters), and stops on the first character
      that is neither. */
  lemma ScanIdentifier(input: string, i: nat)
    requires i <= |input|
    requires var j := RunEnd(input, i, Blanks); j < |input| && IsAlpha(input[j])
    ensures var j := RunEnd(input, i, Blanks); var s := Scan(input, i);
      && s.token == Ident
      && j < s.next
      && (forall k :: j <= k < s.next ==> IsWordChar(input[k]))
      && (s.next == |input| || !IsWordChar(input[s.next]))
      && s.text == Kept(input[j..s.next])
      && s.dropped == Dropped(s.next - j)
  {
    RunEndMaximal(input, RunEnd(input, i, Blanks) + 1, Word);
  }

  /** On a digit, `lex` gives INT_LIT whose lexeme is the maximal run of digits;
      a letter after the digits is not absorbed. */
  lemma ScanInteger(input: string, i: nat)
    requires i <= |input|
    requires var j := RunEnd(input, i, Blanks); j < |input| && IsDigit(input[j])
    ensures var j := RunEnd(input, i, Blanks); var s := Scan(input, i);
      && s.token == IntLit
      && j < s.next
      && (forall k :: j <= k < s.next ==> IsDigit(input[k]))
      && (s.next == |input| || !IsDigit(input[s.next]))
      && s.text == Kept(input[j..s.next])
      && s.dropped == Dropped(s.next - j)
  {
    RunEndMaximal(input, RunEnd(input, i, Blanks) + 1, Digits);
  }

  /** Any other non-blank character is consumed alone: it is its own lexeme,
      and its token is the operator it stands for, or EOF when it stands for none. */
  lemma ScanPunctuation(input: string, i: nat)
    requires i <= |input|
    requires var j := RunEnd(input, i, Blanks); j < |input| && !IsWordChar(input[j])
    ensures var j := RunEnd(input, i, Blanks); var s := Scan(input, i);
      && s.next == j + 1
      && s.text == [input[j]]
      && s.dropped == 0
      && (IsOperatorChar(input[j]) ==> IsOperator(s.token) && OperatorChar(s.token) == input[j])
      && (!IsOperatorChar(input[j]) ==> s.token == Eof)
  {
  }

  /** `12ab` scans as the integer literal `12` followed by the identifier `ab`. */
  lemma DigitsThenLetters()
    ensures Scan("12ab", 0) == Scanned(IntLit, "12", 2, 0)
    ensures Scan("12ab", 2) == Scanned(Ident, "ab", 4, 0)
  {
    assert RunEnd("12ab", 0, Blanks) == 0;
    assert RunEnd("12ab", 1, Digits) == 2 by {
      assert IsDigit("12ab"[1]) && !IsDigit("12ab"[2]);
    }
    assert "12ab"[0..2] == "12";
    assert RunEnd("12ab", 2, Blanks) == 2;
    assert RunEnd("12ab", 3, Word) == 4 by {
      assert IsWordChar("12ab"[3]);
    }
    assert "12ab"[2..4] == "ab";
  }

  /** A lexeme of exactly 99 characters is kept whole; one character more is
      cut to the first 99 and makes one overflow report. */
  lemma LexemeLengthBoundary(run: string)
    ensures |run| == MaxLexeme ==> Kept(run) == run && Dropped(|run|) == 0
    ensures |run| == MaxLexeme + 1 ==> Kept(run) == run[..MaxLexeme] && Dropped(|run|) == 1
  {
  }

  /** The recognizer's view of the scanner: the current token, the lexeme as
      `%s` prints it, the index of the lookahead character, and the number of
      "lexeme is too long" reports so far. */
  datatype Lookahead = Lookahead(token: Token, text: string, pos: nat, overflows: nat)

  /** The lookahead lies within the input. */
  predicate Fits(input: string, st: Lookahead) {
    st.pos <= |input|
  }

  /** What is left to scan: the characters after the lookahead, plus one while
      the current token is not EOF (it still has to be consumed by a later `lex`). */
  function Measure(input: string, st: Lookahead): nat
    requires Fits(input, st)
  {
    |input| - st.pos + (if st.token == Eof then 0 else 1)
  }

  /** The lookahead after one more `lex`. */
  function NextLook(input: string, st: Lookahead): (r: Lookahead)
    requires Fits(input, st)
    ensures Fits(input, r) && st.pos <= r.pos
    ensures r.pos == st.pos ==> r.token == Eof
    ensures st.token != Eof ==> Measure(input, r) < Measure(input, st)
    ensures st.overflows <= r.overflows
  {
    var s := Scan(input, st.pos);
    Lookahead(s.token, CString(s.text), s.next, st.overflows + s.dropped)
  }

  /** The blanks before a token do not change what the next `lex` gives. */
  lemma NextLookAfterBlanks(input: string, st: Lookahead)
    requires Fits(input, st)
    ensures NextLook(input, st.(pos := RunEnd(input, st.pos, Blanks))) == NextLook(input, st)
  {
    ScanAfterBlanks(input, st.pos);
  }

  /** Once only blanks are left, `lex` gives EOF with the lexeme `EOF`, moves
      the lookahead to the end of input and reports nothing. */
  lemma NextLookAtEnd(input: string, st: Lookahead)
    requires Fits(input, st) && AtEnd(input, st.pos)
    ensures NextLook(input, st) == Lookahead(Eof, "EOF", |input|, st.overflows)
  {
    ScanProgress(input, st.pos);
    CStringWhole("EOF");
  }
}
